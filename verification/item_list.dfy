/**
 * The parser of the comma-separated item-id lists (the Blacklist and Whitelist
 * options): split on ',' the way `std::getline` does, trim ' ' from both ends of
 * each piece, skip empty pieces and pieces `std::stoul` rejects, and collect the
 * rest, cast to `uint32`, into a set.
 */
module ItemList {
  import opened Wrappers
  import opened Ints
  import opened NumberParsing

  /** Index of the first ',' in `s`, or |s| if there is none. */
  function FirstComma(s: string): (k: nat)
    ensures k <= |s|
    ensures forall i :: 0 <= i < k ==> s[i] != ','
    ensures k < |s| ==> s[k] == ','
  {
    if |s| == 0 then 0 else if s[0] == ',' then 0 else 1 + FirstComma(s[1..])
  }

  /**
   * The pieces successive `std::getline(ss, piece, ',')` calls produce: the text
   * between commas, except that nothing is produced after a final comma (the
   * stream is then exhausted) and the empty string produces no piece at all.
   */
  function Pieces(s: string): (ps: seq<string>)
    ensures forall i :: 0 <= i < |ps| ==> ',' !in ps[i]
    decreases |s|
  {
    if |s| == 0 then []
    else
      var k := FirstComma(s);
      if k == |s| then [s] else [s[..k]] + Pieces(s[k + 1..])
  }

  /** The pieces joined back with ',' between them. */
  function Join(ps: seq<string>): string {
    if |ps| == 0 then []
    else if |ps| == 1 then ps[0]
    else ps[0] + "," + Join(ps[1..])
  }

  predicate EndsWithComma(s: string) {
    |s| > 0 && s[|s| - 1] == ','
  }

  /** Splitting loses nothing: joining the pieces rebuilds the string, up to a final comma. */
  lemma {:induction false} PiecesJoin(s: string)
    ensures Join(Pieces(s)) + (if EndsWithComma(s) then "," else "") == s
    decreases |s|
  {
    if |s| > 0 {
      var k := FirstComma(s);
      if k == |s| {
        assert Pieces(s) == [s];
        assert !EndsWithComma(s);
      } else {
        var head := s[..k];
        var rest := s[k + 1..];
        var ps := Pieces(rest);
        assert Pieces(s) == [head] + ps;
        assert s == head + "," + rest;
        if |rest| == 0 {
          assert Pieces(s) == [head];
          assert EndsWithComma(s);
        } else {
          var tail: string := if EndsWithComma(rest) then "," else "";
          assert EndsWithComma(s) == EndsWithComma(rest);
          PiecesJoin(rest);
          JoinCons(head, ps);
          calc {
            Join(Pieces(s)) + tail;
            (head + "," + Join(ps)) + tail;
            head + "," + (Join(ps) + tail);
            head + "," + rest;
          }
        }
      }
    }
  }

  lemma JoinCons(head: string, ps: seq<string>)
    requires |ps| > 0
    ensures Join([head] + ps) == head + "," + Join(ps)
  {
  }

  /** `find_first_not_of(' ')`, with "not found" as |s|. */
  function FirstNonSpace(s: string): (n: nat)
    ensures n <= |s|
    ensures n == |s| || s[n] != ' '
  {
    if |s| == 0 then 0 else if s[0] == ' ' then 1 + FirstNonSpace(s[1..]) else 0
  }

  /** Everything before `find_first_not_of(' ')` is a space. */
  lemma {:induction false} FirstNonSpaceSkipsSpaces(s: string)
    ensures forall i :: 0 <= i < FirstNonSpace(s) ==> s[i] == ' '
  {
    if |s| > 0 && s[0] == ' ' {
      FirstNonSpaceSkipsSpaces(s[1..]);
      assert forall i :: 1 <= i < FirstNonSpace(s) ==> s[i] == s[1..][i - 1];
    }
  }

  /** `find_last_not_of(' ') + 1`, with "not found" as 0. */
  function EndOfNonSpace(s: string): (n: nat)
    ensures n <= |s|
    ensures n == 0 || s[n - 1] != ' '
  {
    if |s| == 0 then 0 else if s[|s| - 1] == ' ' then EndOfNonSpace(s[..|s| - 1]) else |s|
  }

  /** Everything from `find_last_not_of(' ') + 1` on is a space. */
  lemma {:induction false} EndOfNonSpaceSkipsSpaces(s: string)
    ensures forall i :: EndOfNonSpace(s) <= i < |s| ==> s[i] == ' '
  {
    if |s| > 0 && s[|s| - 1] == ' ' {
      EndOfNonSpaceSkipsSpaces(s[..|s| - 1]);
    }
  }

  /** The two `erase` calls: drop the leading, then the trailing spaces. */
  function TrimSpaces(s: string): (token: string)
    ensures |token| <= |s|
    ensures token == [] || (token[0] != ' ' && token[|token| - 1] != ' ')
    ensures (forall i :: 0 <= i < |s| ==> s[i] == ' ') ==> token == []
  {
    var t := s[FirstNonSpace(s)..];
    t[..EndOfNonSpace(t)]
  }

  function Spaces(n: nat): (r: string)
    ensures |r| == n && forall i :: 0 <= i < n ==> r[i] == ' '
  {
    if n == 0 then [] else [' '] + Spaces(n - 1)
  }

  /** Trimming removes exactly the padding: a core not starting or ending in a space, padded with spaces, trims to itself. */
  lemma {:induction false} TrimPadded(a: nat, t: string, b: nat)
    requires t == [] || (t[0] != ' ' && t[|t| - 1] != ' ')
    ensures TrimSpaces(Spaces(a) + t + Spaces(b)) == t
  {
    var s := Spaces(a) + t + Spaces(b);
    if t != [] {
      assert FirstNonSpace(s) == a by {
        FirstNonSpaceSkipsSpaces(s);
        assert forall i :: 0 <= i < a ==> s[i] == ' ';
        assert s[a] == t[0];
      }
      var u := s[a..];
      assert u == t + Spaces(b);
      assert EndOfNonSpace(u) == |t| by {
        EndOfNonSpaceSkipsSpaces(u);
        assert forall i :: |t| <= i < |u| ==> u[i] == ' ';
        assert u[|t| - 1] == t[|t| - 1];
      }
      assert u[..|t|] == t;
    }
  }

  /** The `try { static_cast<uint32>(std::stoul(token)) } catch` of the loop body. */
  function TokenId(token: string): (id: Option<uint32>)
    ensures id.None? <==> !Stoul(token).Converted?
    ensures id.Some? ==> (Stoul(token).value - id.value) % UINT32_LIMIT == 0
    ensures Stoul(token).Converted? && Stoul(token).value < UINT32_LIMIT ==> id == Some(Stoul(token).value)
  {
    match Stoul(token)
    case Converted(n) => Some(n % UINT32_LIMIT)
    case _ => None
  }

  /** The item id one getline piece contributes, if any. */
  function PieceId(piece: string): (id: Option<uint32>)
    ensures (forall i :: 0 <= i < |piece| ==> piece[i] == ' ') ==> id.None?
    ensures id.Some? ==> TrimSpaces(piece) != [] && Stoul(TrimSpaces(piece)).Converted?
  {
    var token := TrimSpaces(piece);
    if token == [] then None else TokenId(token)
  }

  function Contribution(piece: string): set<uint32> {
    match PieceId(piece)
    case Some(id) => {id}
    case None => {}
  }

  function Collect(ps: seq<string>): set<uint32> {
    if |ps| == 0 then {} else Contribution(ps[0]) + Collect(ps[1..])
  }

  /** The set the parser leaves behind; it does not depend on what the set held before. */
  function ParseItemList(s: string): (ids: set<uint32>)
    ensures |s| == 0 ==> ids == {}
  {
    if |s| == 0 then {} else Collect(Pieces(s))
  }

  lemma {:induction false} CollectMembers(ps: seq<string>, id: uint32)
    ensures id in Collect(ps) <==> exists i :: 0 <= i < |ps| && PieceId(ps[i]) == Some(id)
  {
    if |ps| > 0 {
      CollectMembers(ps[1..], id);
      if id in Collect(ps[1..]) {
        var i :| 0 <= i < |ps[1..]| && PieceId(ps[1..][i]) == Some(id);
        assert PieceId(ps[i + 1]) == Some(id);
      }
      if exists i :: 0 <= i < |ps| && PieceId(ps[i]) == Some(id) {
        var i :| 0 <= i < |ps| && PieceId(ps[i]) == Some(id);
        if i > 0 {
          assert ps[1..][i - 1] == ps[i];
        }
      }
    }
  }

  /** An id is in the parsed set exactly when some getline piece yields it. */
  lemma {:induction false} ParseMembers(s: string, id: uint32)
    ensures id in ParseItemList(s) <==> exists i :: 0 <= i < |Pieces(s)| && PieceId(Pieces(s)[i]) == Some(id)
  {
    var ps := Pieces(s);
    CollectMembers(ps, id);
    assert ParseItemList(s) == Collect(ps);
  }

  /** A string without commas is one piece. */
  lemma {:induction false} ParseOnePiece(s: string)
    requires ',' !in s
    ensures ParseItemList(s) == Contribution(s)
  {
    if |s| > 0 {
      assert FirstComma(s) == |s|;
      assert Pieces(s) == [s];
      assert [s][1..] == [];
      assert Collect([s]) == Contribution(s) + Collect([]);
      assert ParseItemList(s) == Collect([s]);
    }
  }

  /**
   * The pieces on either side of a comma are parsed independently: a piece that
   * fails to parse, or an empty one, drops out without touching its neighbours.
   */
  lemma {:induction false} ParseConcat(a: string, b: string)
    ensures ParseItemList(a + "," + b) == ParseItemList(a) + ParseItemList(b)
    decreases |a|
  {
    var s := a + "," + b;
    var k := FirstComma(a);
    if k == |a| {
      assert FirstComma(s) == |a| by {
        assert s[|a|] == ',';
        assert forall i :: 0 <= i < |a| ==> s[i] == a[i];
      }
      assert s[..|a|] == a;
      assert s[|a| + 1..] == b;
      assert Pieces(s) == [a] + Pieces(b);
      assert Collect(Pieces(s)) == Contribution(a) + Collect(Pieces(b));
      ParseOnePiece(a);
    } else {
      var rest := a[k + 1..] + "," + b;
      assert FirstComma(s) == k by {
        assert forall i :: 0 <= i <= k ==> s[i] == a[i];
      }
      assert s[..k] == a[..k];
      assert s[k + 1..] == rest;
      assert Pieces(s) == [a[..k]] + Pieces(rest);
      assert Pieces(a) == [a[..k]] + Pieces(a[k + 1..]);
      ParseConcat(a[k + 1..], b);
    }
  }

  /** What is left of the stream after one `getline`: the text after the first comma. */
  function AfterPiece(s: string): (rest: string)
    ensures |rest| < |s| || |s| == 0
  {
    var k := FirstComma(s);
    if k == |s| then [] else s[k + 1..]
  }

  /** One `getline` step: the first piece's id, if any, together with the ids of the rest. */
  lemma {:induction false} ParseFirstPiece(s: string)
    requires |s| > 0
    ensures ParseItemList(s) == Contribution(s[..FirstComma(s)]) + ParseItemList(AfterPiece(s))
  {
    var k := FirstComma(s);
    if k == |s| {
      assert s[..k] == s;
      assert Pieces(s) == [s];
      assert Collect([s]) == Contribution(s) + Collect([]);
    } else {
      var ps := Pieces(s[k + 1..]);
      assert Pieces(s) == [s[..k]] + ps;
      assert ([s[..k]] + ps)[1..] == ps;
      assert Collect(Pieces(s)) == Contribution(s[..k]) + Collect(ps);
    }
  }

  /**
   * The loop of the source: clear the target set, then read the string one
   * `getline` piece at a time, trimming and converting each one. Whatever
   * `itemSet` held before is discarded.
   */
  method ParseItemListInto(listStr: string, itemSet: set<uint32>) returns (r: set<uint32>)
    ensures r == ParseItemList(listStr)
  {
    r := {};
    if |listStr| == 0 {
      return;
    }
    var rest := listStr;
    while |rest| > 0
      invariant ParseItemList(listStr) == r + ParseItemList(rest)
      decreases |rest|
    {
      var piece := rest[..FirstComma(rest)];
      var found := Contribution(piece);
      ParseFirstPiece(rest);
      r := r + found;
      rest := AfterPiece(rest);
    }
  }

  /** A digit token denotes its number, cast to uint32; longer than 64 bits it is skipped. */
  lemma {:induction false} DigitTokenId(d: string)
    requires |d| > 0 && AllDigits(d)
    ensures TokenId(d) == if DecimalValue(d) < ULONG_LIMIT then Some(DecimalValue(d) % UINT32_LIMIT) else None
  {
    StoulOfDigits(d);
  }

  /** A piece of digits padded with spaces contributes the number it spells, cast to uint32. */
  lemma {:induction false} DigitPieceId(a: nat, d: string, b: nat)
    requires |d| > 0 && AllDigits(d)
    ensures PieceId(Spaces(a) + d + Spaces(b)) == TokenId(d)
  {
    TrimPadded(a, d, b);
  }

  /** A one-digit token denotes that digit. */
  lemma {:induction false} OneDigitTokenId(d: string)
    requires |d| == 1 && IsDigit(d[0])
    ensures TokenId(d) == Some(DigitValue(d[0]))
  {
    assert DecimalValue(d) == DigitValue(d[0]) by {
      assert d[..0] == [];
    }
    DigitTokenId(d);
  }

  /** A piece holding one digit and otherwise spaces parses to that digit. */
  lemma {:induction false} OneDigitPiece(p: string, i: nat)
    requires i < |p| && IsDigit(p[i])
    requires forall j :: 0 <= j < |p| && j != i ==> p[j] == ' '
    ensures ParseItemList(p) == {DigitValue(p[i])}
  {
    var d := p[i..i + 1];
    var padded := Spaces(i) + d + Spaces(|p| - i - 1);
    assert p == padded by {
      forall j | 0 <= j < |p|
        ensures p[j] == padded[j]
      {
        if j < i {
          assert padded[j] == ' ';
        } else if j == i {
          assert padded[j] == d[0];
        } else {
          assert padded[j] == Spaces(|p| - i - 1)[j - i - 1];
        }
      }
    }
    assert PieceId(p) == TokenId(d) by {
      DigitPieceId(i, d, |p| - i - 1);
    }
    assert TokenId(d) == Some(DigitValue(p[i])) by {
      OneDigitTokenId(d);
    }
    assert ParseItemList(p) == Contribution(p) by {
      assert forall j :: 0 <= j < |p| ==> p[j] != ',';
      ParseOnePiece(p);
    }
  }

  /** A piece whose token has no digit is skipped. */
  lemma {:induction false} NoDigitPiece(p: string, a: nat, t: string, b: nat)
    requires t == [] || (t[0] != ' ' && t[|t| - 1] != ' ')
    requires forall j :: 0 <= j < |t| ==> !IsDigit(t[j]) && t[j] != ','
    requires p == Spaces(a) + t + Spaces(b)
    ensures ParseItemList(p) == {}
  {
    assert PieceId(p) == None by {
      TrimPadded(a, t, b);
      StoulWithoutDigits(t);
    }
    assert ParseItemList(p) == Contribution(p) by {
      assert forall j :: 0 <= j < |p| ==> p[j] != ',' by {
        assert forall j :: a <= j < a + |t| ==> p[j] == t[j - a];
        assert forall j :: a + |t| <= j < |p| ==> p[j] == ' ';
      }
      ParseOnePiece(p);
    }
  }

  /** The first piece of the example below. */
  lemma {:induction false} ExampleOne(p: string)
    requires p == "1"
    ensures ParseItemList(p) == {1}
  {
    OneDigitPiece(p, 0);
  }

  /** The second piece of the example below. */
  lemma {:induction false} ExampleTwo(p: string)
    requires p == " 2"
    ensures ParseItemList(p) == {2}
  {
    OneDigitPiece(p, 1);
  }

  /** The third piece of the example below. */
  lemma {:induction false} ExampleThree(p: string)
    requires p == "3 "
    ensures ParseItemList(p) == {3}
  {
    OneDigitPiece(p, 0);
  }

  /** The fourth piece of the example below: not a number. */
  lemma {:induction false} ExampleAbc(p: string)
    requires p == " abc"
    ensures ParseItemList(p) == {}
  {
    NoDigitPiece(p, 1, p[1..], 0);
  }

  /** The last piece of the example below. */
  lemma {:induction false} ExampleFour(p: string)
    requires p == "4"
    ensures ParseItemList(p) == {4}
  {
    OneDigitPiece(p, 0);
  }

  /** The tail `"3 , abc,4"` of the example below. */
  lemma {:induction false} ExampleTail(p3: string, p4: string, p5: string)
    requires p3 == "3 " && p4 == " abc" && p5 == "4"
    ensures ParseItemList(p3 + "," + (p4 + "," + p5)) == {3, 4}
  {
    ExampleThree(p3);
    ExampleAbc(p4);
    ExampleFour(p5);
    ParseConcat(p4, p5);
    ParseConcat(p3, p4 + "," + p5);
  }

  /** `"1, 2,3 , abc,4"` written as its five pieces: the literal is kept out of the piece proofs. */
  lemma {:induction false} ParseExamplePieces(p1: string, p2: string, p3: string, p4: string, p5: string)
    requires p1 == "1" && p2 == " 2" && p3 == "3 " && p4 == " abc" && p5 == "4"
    ensures ParseItemList(p1 + "," + (p2 + "," + (p3 + "," + (p4 + "," + p5)))) == {1, 2, 3, 4}
  {
    var t := p3 + "," + (p4 + "," + p5);
    ExampleTail(p3, p4, p5);
    ExampleOne(p1);
    ExampleTwo(p2);
    ParseConcat(p2, t);
    ParseConcat(p1, p2 + "," + t);
  }

  /**
   * `"1, 2,3 , abc,4"` parses to {1, 2, 3, 4}: the spaces around each id are
   * trimmed, and "abc" is rejected and skipped without affecting the other ids.
   */
  lemma {:induction false} ParseExample()
    ensures ParseItemList("1, 2,3 , abc,4") == {1, 2, 3, 4}
  {
    var t4 := " abc" + "," + "4";
    assert t4 == " abc,4";
    var t3 := "3 " + "," + t4;
    assert t3 == "3 , abc,4";
    var t2 := " 2" + "," + t3;
    assert t2 == " 2,3 , abc,4";
    var t1 := "1" + "," + t2;
    assert t1 == "1, 2,3 , abc,4";
    ParseExamplePieces("1", " 2", "3 ", " abc", "4");
  }
}
