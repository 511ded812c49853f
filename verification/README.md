# JunkToGold, modelled in Dafny

JunkToGold is an AzerothCore player script that sells junk as soon as it is looted.
When a player loots an item, the handler runs a chain of filters:

- whether the module is enabled;
- whether the item and its template are there;
- under OnlyForBots, whether the player is a bot;
- the player's level and the item quality range;
- the blacklist and the whitelist;
- bind-on-pickup and quest items;
- a non-zero sell price.

An item that passes every filter is sold. The handler computes the sell price times the
looted count as a 32-bit unsigned value. It optionally broadcasts a server-wide notice
with that value in gold, silver and copper. It then credits the player and destroys the item.
The blacklist and whitelist come from configuration options written as comma-separated item ids.

The model is pure Dafny, one module per component:

- `Wrappers` (wrappers.dfy): `Option`, for null pointers and unset options.
- `Ints` (ints.dfy): `uint8` and `uint32`, with the wrap-around of the 32-bit product
  and of the narrowing to `uint8` written out.
- `NumberParsing` (stoul.dfy): `std::stoul` in base 10 on an LP64 host.
  It skips leading white space, takes an optional sign and the longest run of digits,
  and ignores what follows. It reports `invalid_argument` and `out_of_range`,
  and negates modulo 2^64.
- `ItemList` (item_list.dfy): `ParseItemList`, which covers several steps:
  - it splits the text the way `std::getline` does on `,`;
  - it trims `' '` at both ends of each piece;
  - it skips empty pieces and pieces `stoul` rejects;
  - it casts the rest to `uint32`.

  The module has a functional definition and a loop method over the same pieces.
- `Transaction` (transaction.dfy): the gold/silver/copper split and the seven sentence
  shapes of `SendTransactionInformation`, plus the item link, with `x<count>` only for
  stacks. A notice is structured data: the link and a `Sentence` naming the tiers it mentions.
- `JunkToGold` (junk_to_gold.dfy): the configuration with its defaults, `ReloadConfig`,
  the `IsBot` heuristic and `OnPlayerLootItem`.
  - The handler is the pure function `Decide`. It returns the calls it makes into the
    server, `Broadcast`, `ModifyMoney` and `DestroyItem`, as a sequence of `Effect` values.
  - The account_tutorial table is given as a set of account ids.
  - `BotLookups` records which accounts the handler looks up.

Host constants the source takes from headers are fixed as `GOLD = 10000`, `SILVER = 100`,
`BIND_WHEN_PICKED_UP = 1` and `ITEM_CLASS_QUEST = 12`. The handler reads the template's
quality into a `uint8`, so the model compares the quality modulo 256.

`DestroyItem(bagSlot, slot, true)` removes the whole item at that slot, whatever `count` is,
so the `DestroyItem` effect carries the bag and slot only.

## Model

| member | source | states |
|---|---|---|
| Ints.Mul32 | src/mod_junk_to_gold.cpp:117 | the 32-bit product equals the true product when that fits, never exceeds it, and differs from it by a multiple of 2^32 |
| Ints.Low8 | src/mod_junk_to_gold.cpp:92 | reading a quality into `uint8` keeps values below 256 and otherwise agrees with the value modulo 256 |
| NumberParsing.SpaceCount | src/mod_junk_to_gold.cpp:182 | `stoul` skips leading white space up to the first non-space character |
| NumberParsing.DigitCount | src/mod_junk_to_gold.cpp:182 | the digit run `stoul` reads stops at the first non-digit |
| NumberParsing.Stoul | src/mod_junk_to_gold.cpp:182 | a successful conversion always fits `unsigned long` (below 2^64) |
| NumberParsing.DecimalRoundTrip | src/mod_junk_to_gold.cpp:182 | reading back the decimal spelling of any number gives that number |
| NumberParsing.StoulOfDigits | src/mod_junk_to_gold.cpp:182 | an all-digit token converts to the number it spells, or throws out_of_range at 2^64 and above |
| NumberParsing.StoulIgnoresTrailing | src/mod_junk_to_gold.cpp:182 | characters after the digit run are ignored (`12abc` reads as 12) |
| NumberParsing.StoulWithoutDigits | src/mod_junk_to_gold.cpp:180-188 | a token without a digit throws invalid_argument, which the parser catches |
| NumberParsing.StoulNegative | src/mod_junk_to_gold.cpp:182 | a leading minus is accepted and negates the magnitude modulo 2^64 |
| ItemList.FirstComma | src/mod_junk_to_gold.cpp:172 | `getline` reads up to the first `,` and no further |
| ItemList.Pieces | src/mod_junk_to_gold.cpp:172 | no piece `getline` yields contains the delimiter |
| ItemList.PiecesJoin | src/mod_junk_to_gold.cpp:172 | rejoining the pieces with `,` restores the text, except for one final comma that yields no piece |
| ItemList.TrimSpaces | src/mod_junk_to_gold.cpp:175-176 | the token is no longer than the piece, neither starts nor ends with a space, and is empty for an all-space piece; `TrimPadded` shows it is exactly the piece without its padding |
| ItemList.FirstNonSpaceSkipsSpaces | src/mod_junk_to_gold.cpp:175 | the first erase removes only spaces, and stops at a non-space |
| ItemList.EndOfNonSpaceSkipsSpaces | src/mod_junk_to_gold.cpp:176 | the second erase removes only spaces, and keeps a non-space last character |
| ItemList.TokenId | src/mod_junk_to_gold.cpp:180-188 | a token yields an id iff `stoul` converts it; the id is the converted value modulo 2^32 (the `static_cast<uint32>`), and equal to it below 2^32 |
| ItemList.PieceId | src/mod_junk_to_gold.cpp:175-188 | a piece that is empty or all spaces yields no id; a piece that yields an id has a non-empty trimmed token that `stoul` converts |
| ItemList.TrimPadded | src/mod_junk_to_gold.cpp:175-176 | trimming removes exactly the space padding around a token |
| ItemList.CollectMembers | src/mod_junk_to_gold.cpp:172-190 | an id is collected exactly when some piece yields it |
| ItemList.ParseItemList | src/mod_junk_to_gold.cpp:162-191 | the empty string yields the empty set; `ParseMembers` states the membership rule below |
| ItemList.ParseMembers | src/mod_junk_to_gold.cpp:162-191 | an id is in the parsed set exactly when some getline piece of the text yields it |
| ItemList.ParseOnePiece | src/mod_junk_to_gold.cpp:172-190 | text without commas is a single piece |
| ItemList.ParseConcat | src/mod_junk_to_gold.cpp:172-190 | the ids on either side of a comma are parsed independently, so a rejected piece does not affect the others |
| ItemList.AfterPiece | src/mod_junk_to_gold.cpp:172 | each `getline` consumes at least one character, so the loop ends |
| ItemList.ParseFirstPiece | src/mod_junk_to_gold.cpp:172-189 | the set is the first piece's id, if any, together with the ids of the rest of the stream |
| ItemList.ParseItemListInto | src/mod_junk_to_gold.cpp:162-191 | the loop clears the set and computes the parsed set of the text, whatever the set held before |
| ItemList.DigitTokenId | src/mod_junk_to_gold.cpp:182-183 | a digit token yields its value cast to `uint32`, and is skipped when stoul overflows |
| ItemList.DigitPieceId | src/mod_junk_to_gold.cpp:175-183 | a digit token padded with spaces yields the same id as the bare token |
| ItemList.OneDigitPiece | src/mod_junk_to_gold.cpp:172-183 | a piece of one digit and spaces yields that digit |
| ItemList.NoDigitPiece | src/mod_junk_to_gold.cpp:180-188 | a piece whose token has no digit, padded with spaces on either side, is rejected and skipped |
| ItemList.ParseExample | src/mod_junk_to_gold.cpp:162-191 | `"1, 2,3 , abc,4"` yields {1, 2, 3, 4} |
| Transaction.Split | src/mod_junk_to_gold.cpp:208-210 | gold*10000 + silver*100 + copper equals the total, with silver and copper below 100 |
| Transaction.SplitOfValue | src/mod_junk_to_gold.cpp:208-210 | the split is the unique canonical tier triple of the total |
| Transaction.SentenceFor | src/mod_junk_to_gold.cpp:213-245 | gold is named iff total >= 10000; silver iff total >= 100 and (total < 10000 or silver > 0); copper iff total < 100 or copper > 0; every named count is the one `Split` computes |
| Transaction.SentenceAnnouncesTotal | src/mod_junk_to_gold.cpp:208-245 | the tiers the sentence names add up to exactly the total |
| Transaction.SentenceNamesNoZeroTier | src/mod_junk_to_gold.cpp:213-245 | no sentence names a zero tier, except the copper of a zero total |
| Transaction.SentenceExamples | src/mod_junk_to_gold.cpp:213-245 | 50, 150, 10000, 10050 and 10100 copper give the shapes for 50, 150, 10000, 10050 and 10100 copper: 50 copper; 1 silver and 50 copper; 1 gold; 1 gold and 50 copper; 1 gold and 1 silver |
| Transaction.LinkFor | src/mod_junk_to_gold.cpp:197-206 | the link names the item and carries a quantity iff count > 1 |
| Transaction.LinkShowsCount | src/mod_junk_to_gold.cpp:197-206 | for a count of at least one, a reader of the link recovers the count |
| Transaction.TransactionInformation | src/mod_junk_to_gold.cpp:194-246 | the notice names the item, shows the quantity iff count > 1 and then shows `count`, carries the sentence `SentenceFor` chooses for the total, and announces exactly the total |
| JunkToGold.ReloadConfig | src/mod_junk_to_gold.cpp:50-68 | every scalar option that is set is taken as given and every unset one takes its default; the lists are the parsed option text, empty when unset |
| JunkToGold.ReloadWithoutOptions | src/mod_junk_to_gold.cpp:52-67 | with nothing set, the configuration is the defaults (enabled, quality 0-0, no message, level 1, bots only, BOP and quest items excluded, empty lists) |
| JunkToGold.IsBot | src/mod_junk_to_gold.cpp:134-159 | a player without a session is a bot; with a session, the player is a bot iff the account has no account_tutorial row |
| JunkToGold.SessionlessIsBot | src/mod_junk_to_gold.cpp:136-138 | a player without a session is a bot, whatever the table holds |
| JunkToGold.Qualifies | src/mod_junk_to_gold.cpp:80-114 | an item that passes every filter has a non-empty quality range, is not blacklisted and has a sell price |
| JunkToGold.Decide | src/mod_junk_to_gold.cpp:70-130 | there are effects iff the module is enabled, item and template exist and every filter passes; then they are the optional broadcast, the credit of price*count mod 2^32 and the destroy, in that order |
| JunkToGold.BotLookups | src/mod_junk_to_gold.cpp:134-147 | at most one account lookup per event, only under OnlyForBots and only for the player's own session |
| JunkToGold.OnlyLookedUpAccountsMatter | src/mod_junk_to_gold.cpp:134-159 | the outcome depends on the account_tutorial table only through the accounts the handler looks up |
| JunkToGold.OnPlayerLootItem | src/mod_junk_to_gold.cpp:70-130 | with `IsBot` asked of the table, there are effects iff enabled, item and template exist and every filter passes; under OnlyForBots a player whose account has a tutorial row is never converted |
| JunkToGold.NothingWithoutItem | src/mod_junk_to_gold.cpp:73-78 | a disabled module, a null item or a null template produces no effect |
| JunkToGold.BlacklistWins | src/mod_junk_to_gold.cpp:96-98 | a blacklisted item is never converted, whether or not it is whitelisted |
| JunkToGold.EmptyWhitelistAdmitsAll | src/mod_junk_to_gold.cpp:100-102 | an empty whitelist behaves as one that names the item |
| JunkToGold.WhitelistRestricts | src/mod_junk_to_gold.cpp:100-102 | a non-empty whitelist that misses the item blocks it |
| JunkToGold.EmptyQualityRange | src/mod_junk_to_gold.cpp:91-94 | with MinQuality above MaxQuality nothing is converted |
| JunkToGold.UnsellableUntouched | src/mod_junk_to_gold.cpp:112-114 | an item with sell price 0 is never touched |
| JunkToGold.BotStatusIgnored | src/mod_junk_to_gold.cpp:80-82 | without OnlyForBots, bot status makes no difference |
| JunkToGold.NoticeMatchesCredit | src/mod_junk_to_gold.cpp:117-126 | the broadcast names the looted item and count and announces exactly the credited amount |
| JunkToGold.CreditWithoutWrap | src/mod_junk_to_gold.cpp:116-126 | when price*count fits in 32 bits, that product is credited |
| JunkToGold.CreditWraps | src/mod_junk_to_gold.cpp:116-129 | beyond 32 bits the credit wraps: two units at 2^31 copper are credited 0 and still destroyed |
| JunkToGold.DefaultsSellOnlyPoorItems | src/mod_junk_to_gold.cpp:52-94 | under the defaults only bots of level 1 or more have poor (quality 0) items converted |
| JunkToGold.ScenarioSold | src/mod_junk_to_gold.cpp:70-130 | quality 2, price 10, no binding, count 3 under `ScenarioConfig` (enabled, quality 0-4, level 1, not bots only, BOP excluded) credits 30 and destroys the item, with no notice |
| JunkToGold.ScenarioBindOnPickup | src/mod_junk_to_gold.cpp:104-106 | under the same settings an item bound on pickup is kept |

## Left out

- Reading the configuration file (`sConfigMgr->GetOption`, including how text becomes `bool` or `uint8`): options arrive already typed, as `Option` values.
- The constructor's log lines and every `LOG_*` call, including the log of a rejected list token: logging has no effect on the outcome.
- The account_tutorial query itself: it is external I/O, given as the set of accounts that have a row. The source does not handle query errors, so none are modelled.
- `ModifyMoney`, `DestroyItem` and `SendServerMessage`: they are host code, so only the calls are emitted. Balance overflow and inventory state live in the host.
- The sentence text, in Chinese UTF-8, and the `|cff9d9d9d|Hitem:…` link encoding: these are presentation only, so a notice is modelled as structured data.
- The `lootguid` parameter: the handler does not use it.
- `unsigned long` is taken to be 64 bits wide (LP64). On a host with a 32-bit `unsigned long`, `stoul` throws out_of_range from 2^32 on.
- Registration of the script (`Addmod_junk_to_goldScripts`) and the host headers: the constants taken from them are fixed as listed above.
