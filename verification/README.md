# Verification of the mahjong game server

A Dafny 4.11 model of the algorithmic and stateful cores of the server, with proofs of what
they guarantee. Every statement is a theorem about the model, which follows the C++ branch by
branch. `dafny verify dfyconfig.toml` checks the whole project.

| file | models |
|---|---|
| `Tiles.dfy`, `Hands.dfy`, `Fans.dfy` | tiles, a hand as one row per kind, fan types and products |
| `WinningHand.dfy` | `Player::CanHuPai` with its records, and the shape part of the win test |
| `Combination.dfy`, `WildSearch.dfy` | the multiset successor and the search over wild tiles, `Player::CheckHuiHu` |
| `TingPai.dfy` | ready hands: `CheckTingPai`, `CanTingPai`, `CheckQiDui` |
| `Settlement.dfy` | `Game::Calculate`, `CalculateGangScore`, `OnLiuJu`, liability |
| `TaskScheduler.dfy` | the task queue, dispatch, repetition, and `PlayerMatch::DoMatch` |
| `ByteBuffer.dfy` | the bit and byte codec |
| `Wall.dfy` | draws from both ends of the tile wall |
| `PlayerTiles.dfy` | a player's tiles as a turn machine |
| `Claims.dfy` | which players are asked about a discard or a kong, and in which order |
| `RobbedKong.dfy` | a kong that can be robbed: questions, tiles and settlement together |
| `Clan.dfy` | room cards of a clan: admission, start, sync, end |
| `Room.dfy` | banker rotation, match end, final totals |
| `Match.dfy` | games settled and recorded in a room, from the first to the final totals |
| `FrameQueue.dfy` | length-prefixed frames under partial writes, and the receive loop |

Where the C++ updates an object, the model has a class with the same fields, and each method's
contract equates the new state with a function of the old one. The theorems are about these
functions, over whole runs; `ByteBuffer.Transfer` runs the methods themselves. Loop bodies that are long in the C++ are split into methods of
their own. `TaskQueue` keeps its tasks in a sequence ordered by end time, as `std::multiset`
does; a ticket numbers the insertions.

## What the code does not guarantee

The named members prove each of these: the exact condition under which the code does what it is
meant to and, where the condition alone does not show it, an input where it does not.

- `ByteBuffer::AppendPackedUInt64` takes the position of its mask before pending bits are
  flushed. A script is read back exactly when no packed number follows pending bits, except 0
  after bits that are all zero (`ByteBuffer.RoundTrip`, `ByteBuffer.PackedAfterBitIsLost`).
- In 建平 a scoring open kong whose source is not at the table is paid by nobody. `OnGangPai`
  records a kong from three tiles in the hand with the source the client sent. Settlement is
  zero-sum exactly when no such kong exists (`Settlement.ZeroSum`,
  `Settlement.UnfilledSourceIsNotZeroSum`).
- `CheckGangPai`, the wind kong and 追风杠 do not ask whether it is the player's turn to
  discard. From 13 tiles a kong of four own tiles leaves 12, the replacement is refused, and
  neither turn test holds again (`PlayerTiles.KongKeepsTurn`, `PlayerTiles.FengKongKeepsTurn`,
  `PlayerTiles.ZhuiKongKeepsTurn`, `PlayerTiles.DrawToTurn`; inputs `PlayerTiles.UnguardedKong`,
  `PlayerTiles.UnguardedFengKong`, `PlayerTiles.UnguardedZhuiKong`).
- The TINGPAI case does not ask either, and `CanTingPai` can accept on the drawing side, because
  the two-tile case of `CanHuPai` does not look at `use_pair`: it takes a second pair. The hand is
  then left at 12 (`PlayerTiles.TingKeepsTurn`, `PlayerTiles.ReadyOnTheDrawingSide`). On which
  hand sizes `CanHuPai` is right is `WinningHand.SearchRightBySize`.
- A kong of three held tiles laid down at a count of 14 passes the test too; while it is being
  robbed the count is 11, not 10 (`PlayerTiles.RobbedLeavesTen`, `PlayerTiles.RobbedAtFourteen`).
- A kong that several players can rob is recorded once for each of them: `CheckQiangGang` queues a
  claim for each, giving up records the kong, and the other claims stay queued, so that the owner's
  own pass asks the next one. From 14 the count becomes 17, and settlement pays the kong again
  (`PlayerTiles.GivenUpTwice`, `RobbedKong.RecordedForEachRobber`,
  `RobbedKong.TurnKeptForOneRobber`, `RobbedKong.TwoRobbers`, `RobbedKong.PaidForEachRecord`).
- A kong that was robbed and given up names its owner as its source. With three tiles of the hand
  and a discard that is not the source it would have had, and in 建平 the feeder then pays one share
  in place of three (`PlayerTiles.GivingUpRestores`, `PlayerTiles.GivingUpForgetsFeeder`,
  `RobbedKong.FeederIsSpared`).
- A claim carried out leaves the others queued: the next pass asks about a tile that is gone exactly
  when that claim was not the last (`Claims.AskedAnyway`, `Claims.LeftoverIsAsked`). The claim
  `SendCheckRtn` erases is not the one it asks when the player has another before it
  (`Claims.ErasesAsked`, `Claims.QuestionStays`).
- The tile shared out to each player when a game is drawn is taken without a test: a player at 14
  gets 15 (`PlayerTiles.FenZhangEffect`, `PlayerTiles.SharedAtFourteen`).
- Over whole runs the turn is kept exactly when every step is on turn (`PlayerTiles.EveryTurn`).
- `Game::GetBaoPai` moves a taken index by six once and does not look again: it can show a tile
  that a player holds (`Wall.BaoShowsFreshTile`, `Wall.BaoShowsDealtTile`). `Game::FaPai` does
  not look at the reserved indices at all: the four tiles shared out at the end can include the
  bonus tile put aside (`Wall.FrontDealsUsedTile`, `Wall.SharingDealsBonusTile`).
- The clan's room limit is tested with `<`: a room more is admitted exactly when the list holds
  as many as the limit (`Clan.AdmissionPassesLimit`, `Clan.LimitIsPassedByOne`). A finished room
  is listed again when a player leaves it after its end was reported, and stands beside the others
  until its end is reported once more (`Clan.CardsAlwaysSuffice`, `Clan.LateSyncPassesLimit`).
- The first game of a room starts while the round count is still 0, so it starts in a room
  opened for 0 rounds (`Room.StartsWhileRoundsRemain`, `Room.RoomForNothingStarts`).
- A write of zero bytes drops the frame (`FrameQueue.WireAndQueue`,
  `FrameQueue.ZeroWriteLosesMessage`). Messages of 65536 bytes or more are cut to their size modulo
  65536, and the frames of 65534 and 65535 bytes are never written, so a message arrives only when
  it has 1 to 65533 bytes (`FrameQueue.MessageArrives`, `FrameQueue.FullWritesSend`,
  `FrameQueue.NeverWritten`).
- `CheckTingPai` asks for a 幺九 and `CanTingPai` does not, so `CanTingPai` accepts more
  (`TingPai.OfferThenAccept`).
- When no winning filling has a product of at least 1 (a fan without a multiple counts 0), the
  wild search keeps what the last filling tried left: the fans of a win only when that filling
  wins, else none (`WildSearch.KeptIsOfWin`, `WildSearch.UnconfiguredFanIsLost`).

Two more depend on callers, which keep them from failing. `CheckPai` does not look at the seat
`_curr_player_index`, but its only caller puts the discarder there first
(`Claims.DiscardIsOffered`, `Claims.MissedClaim`). A dispatch never ends while a due task repeats
itself without any delay, and ends when all delays are positive
(`TaskScheduler.SpinningNeverEnds`, `TaskScheduler.DelayEnds`).

## Model

| member | source | states |
|---|---|---|
| WinningHand.Player.CanHuPai | GameServer/Player.cpp:2111-2210 | on hands of every size the answer is that of the pure search; on 3n+2 tiles (3n once the pair is used) it is true exactly when the tiles split into one pair (none if already used), triplets and same-suit runs; the vector is shortened in place, the records added say which melds occur in some split, and the pair kept is the pair of some split |
| WinningHand.SearchIsSplit | GameServer/Player.cpp:2111-2210 | the search with its branches as the code orders them answers, on every sorted hand of a documented size, whether the hand splits |
| WinningHand.SplitByCounts | GameServer/Player.cpp:2111-2210 | a hand splits exactly when numbers of pairs, triplets and runs of the three suits exist that add up, face by face, to the tiles held |
| WinningHand.RunIsOfSuit | GameServer/Player.cpp:2162-2205 | a run of a split is never of winds or dragons; it is three neighbours of one suit, all in the hand |
| WinningHand.HonorsInThrees | GameServer/Player.cpp:2162-2205 | in a hand that splits every wind and dragon is held a multiple of three times, but for one that is the pair |
| WinningHand.SmallestWins | GameServer/Player.cpp:2137-2209 | a pair with a triplet of any face, or with a run of a suit, splits |
| WinningHand.SearchRightBySize | GameServer/Player.cpp:2111-2135 | it answers so for every hand of n tiles exactly when n leaves 2 by three, or is 1: the two-tile case does not look at `use_pair` |
| WinningHand.OnlyDocumentedSizes | GameServer/Player.cpp:2111-2210 | only hands of 3n+2 tiles split at all |
| WinningHand.DecidedByBranches | GameServer/Player.cpp:2137-2209 | a hand is decided, records and pair included, when its three branches are: this is what the recursion keeps |
| WinningHand.SearchStep | GameServer/Player.cpp:2137-2209 | a hand splits exactly when its smallest tile, taken as pair, triplet or start of a run, leaves a hand that splits: trying three ways loses nothing |
| WinningHand.Peel | GameServer/Player.cpp:2137-2209 | every split of a hand uses its smallest tile in one of the three ways, and what is left of the split splits what is left of the hand |
| WinningHand.Extend | GameServer/Player.cpp:2137-2209 | the converse: a split of the rest extends to a split of the whole hand by the tile's pair, triplet or run |
| WinningHand.UseStep | GameServer/Player.cpp:2137-2207 | a meld occurs in some split exactly when it heads a winning branch or occurs below one |
| WinningHand.RecordsStep | GameServer/Player.cpp:2137-2209 | joining the records of the three branches gives the records of the whole search: runs listed are those of some split, triplet and run flags hold when some split has one |
| WinningHand.RecordsMean | GameServer/Player.cpp:2121-2207 | at the top of the search: the triplet flag, the run flag and a non-empty run list each mean that some winning partition has such a meld |
| WinningHand.SmallSearch | GameServer/Player.cpp:2113-2135 | hands of at most two tiles: nothing, or a pair; no melds are recorded |
| WinningHand.Player.TryPair | GameServer/Player.cpp:2140-2153 | taking the first two tiles as the pair wins exactly when they are equal and the rest splits without a pair; the pair is then recorded |
| WinningHand.Player.TryTriplet | GameServer/Player.cpp:2159-2160 | the same for the first three tiles as a triplet |
| WinningHand.Player.TryRun | GameServer/Player.cpp:2162-2205 | the same for the run that starts at the first tile, which is erased from the vector tile by tile: a run wins only on a tile of a suit, of value 7 or less, whose two neighbours are in the hand |
| WinningHand.Player.CheckShape | GameServer/Player.cpp:2805-2832 | on cleared records: the search over the sorted hand; on 3n+2 tiles also whether some winning partition has a triplet (刻) and whether some has a run, as counted for the 刻 and 飘 rules; every run recorded is of a suit, and no wind or dragon of a winning hand is held 1 or 4 times |
| WinningHand.Player.CountRecords | GameServer/Player.cpp:2821-2830 | the counts over the records are positive exactly when a triplet, or a run, was flagged |
| Combination.CombinationWithRepeated | Include/CommonUtil.h:106-139 | in place: the immediate lexicographic successor among non-decreasing vectors over [0,Set); false, changing nothing, exactly when no larger one exists |
| Combination.RaiseFollows | Include/CommonUtil.h:111-136 | raising the last entry below the maximum, and all after it to the same value, skips no choice |
| Combination.TrailMeetsEveryBagOnce | Include/CommonUtil.h:106-139 | iterating from zeros meets every multiset of the given size exactly once |
| Combination.WeightFollows | Include/CommonUtil.h:106-139 | a bounded measure grows with every step, so the iteration ends |
| WildSearch.Player.CheckHuiHu | GameServer/Player.cpp:2295-2427 | with k wild tiles: true exactly when the tiles that are searched exist (by counts: every face as held, one more of the claimed tile on a discard, one less for each 绝头, none of the wild face) and some k faces fill them to a win, k being the wild tiles held and the 绝头; when scoring, the fan set kept is one with the largest product when some winning filling has a product of at least 1, and otherwise what the last filling tried left |
| WildSearch.Player.Prepare | GameServer/Player.cpp:2295-2346 | the tiles the search fills, by counts: a face other than the wild one is held as often as in the hand, once more when it was claimed on a discard, once less for each 绝头 of it; the wild face is gone; the number to fill is that of the wild tiles held and the 绝头 |
| WildSearch.Player.Enumerate | GameServer/Player.cpp:2352-2399 | without scoring it stops at the first winning filling; otherwise it goes through all fillings and lists the fan set of each win |
| WildSearch.Player.Search | GameServer/Player.cpp:2352-2422 | the enumeration with the choice of the fan set: of a winning filling with the largest product of at least 1, or what the last filling tried left |
| WildSearch.Player.Largest | GameServer/Player.cpp:2408-2422 | a listed fan set of the largest product when some product is at least 1, exactly the current fan set when none is |
| WildSearch.KeptIsOfWin | GameServer/Player.cpp:2405-2422 | the fan set kept belongs to a winning filling exactly when some winning filling has a product of at least 1 or the last filling tried, all wild tiles as the last face, wins; otherwise it is empty |
| WildSearch.UnconfiguredFanIsLost | GameServer/Room.cpp:594-606 | two faces, one wild tile, only the first face wins, with a fan that has no multiple: the win is scored with no fan |
| WildSearch.CollectedKept | GameServer/Player.cpp:2352-2422 | what an enumeration collected and left, together with the choice, gives the fan set specified |
| Combination.TrailEndsAtTop | Include/CommonUtil.h:106-139 | a whole enumeration ends with every entry at its highest |
| WildSearch.Player.ScoreOf | GameServer/Player.cpp:2411-2413 | the product of the multiples, whatever order the fan set is visited in |
| WildSearch.Player.TakeJueTou | GameServer/Player.cpp:2329-2346 | one copy of each 绝头 tile is taken out, when all are there |
| WildSearch.TrailTriesAll | GameServer/Player.cpp:2356-2391 | an enumeration of all index multisets tries every filling, up to order |
| WildSearch.EveryFillTried | GameServer/Player.cpp:2352-2399 | some filling wins exactly when one of those tried does |
| WildSearch.CollectedBest | GameServer/Player.cpp:2405-2422 | the largest product listed is the largest over all winning fillings |
| TingPai.Player.CheckTingPai | GameServer/Player.cpp:4087-4144 | offers exactly the tiles whose discard leaves a 幺九 and for which some face completes a win, once per copy and completing face |
| TingPai.Player.CanTingPai | GameServer/Player.cpp:4000-4041 | accepts a held tile when some face then wins and, once faces are fixed, no new face is waited for; the first acceptance fixes the faces |
| TingPai.OfferThenAccept | GameServer/Player.cpp:4000-4041 | whatever is offered is accepted while no faces are fixed; beyond that only discards that leave no 幺九 are accepted |
| TingPai.OfferedExactly | GameServer/Player.cpp:4104-4138 | a tile is listed a positive number of times exactly when it can be offered |
| TingPai.CheckQiDui | GameServer/Player.cpp:3189-3213 | seven pairs: nothing laid out and every face held an even number of times |
| TingPai.PairsUpIsAllEven | GameServer/Player.cpp:3199-3213 | on a sorted row, neighbours pair up exactly when every value occurs an even number of times |
| Settlement.Conservation | GameServer/Game.cpp:879-1120 | final scores after win, kongs and liability sum to the points no player was charged for; a discarder, where there is one, is seated |
| Settlement.ZeroSum | GameServer/Game.cpp:879-1120 | they sum to 0 exactly when, in 建平, every kong that scores was fed by somebody at the table; always 0 elsewhere |
| Settlement.UnfilledSourceIsNotZeroSum | GameServer/Game.cpp:1588-1622 | a 建平 kong whose source was never filled in: the scores do not sum to 0 |
| Settlement.GangConservation | GameServer/Game.cpp:1514-1649 | kong scores alone sum to the points nobody was charged for |
| Settlement.MingPaidInFull | GameServer/Game.cpp:1584-1622 | the three opponents together pay three shares for every open kong, unless 建平 finds its source outside the table |
| Settlement.EachPaysOneShare | GameServer/Game.cpp:1584-1622 | outside 建平 every opponent pays one share for each open kong, whatever its source |
| Settlement.FeederPays | GameServer/Game.cpp:1592-1612 | in 建平 a player pays three shares for each open kong he fed, one for each that its owner fed, and nothing for the others |
| Settlement.GangBalanceIs | GameServer/Game.cpp:1514-1649 | kongs over the table: a player gets three shares for each kong of his own and pays for those of the others: one share each, but for an open kong in 建平 three when he fed it, one when its owner did and nothing otherwise |
| Settlement.ContributionSum | GameServer/Game.cpp:1573-1645 | what one player's kongs add to the whole table |
| Settlement.BaoSanJia | GameServer/Game.cpp:1094-1120 | 包三家 on a discard: other losers end with their kong balance, the discarder bears what all losers would have paid, the winner gets it |
| Settlement.EveryLoserPays | GameServer/Game.cpp:1020-1120 | a self-drawn win, or one without liability: every other player ends with his kong balance less his loss, the winner with his kong balance and all of these |
| Settlement.YiJiaFu | GameServer/Game.cpp:1043-1049 | 一家付 on a discard: other losers end with their kong balance, the discarder pays only his own part |
| Settlement.Game.Calculate | GameServer/Game.cpp:842-1120 | the score records equal the specified final scores; settlement gives up exactly when the winner, or a discarder who is liable or pays alone, is not seated; a loser who is not excused ends with his kong balance less the smaller of his product and the cap, when there is one |
| Settlement.Game.SettleWin | GameServer/Game.cpp:1020-1120 | the steps after the losers: done exactly when a discarder who is liable or pays alone is seated, with the final scores in the records |
| Settlement.Game.FillLosers | GameServer/Game.cpp:879-1016 | step 1: every loser's score is minus the product of his factors, or minus the cap when there is one and it is smaller |
| Settlement.Game.LoserElement | GameServer/Game.cpp:885-1013 | one loser's record: he loses what his last detail shows (1 when there is none), or the cap when there is one and it is smaller; each detail shows the product so far, and each fan type is named as often as it multiplies, the hand's fans in any order |
| Settlement.LossIsSmaller | GameServer/Game.cpp:1008-1012 | a loss is never more than the product of the factors, never more than a cap that is set, and always one of the two |
| Settlement.RawLossIs | GameServer/Game.cpp:881-1006 | what a loser pays before the cap: the product of the fans and 绝头会 of the winner, and of one multiple for each way of losing that applies to him |
| Settlement.WaysMean | GameServer/Game.cpp:925-1006 | how often each way of losing multiplies, read off the table: 三家闭门, 自摸, 点炮, 流泪, the banker, 闭门, 明飘 |
| Settlement.Game.HowLost | GameServer/Game.cpp:925-1006 | the factors of how he lost, in order, each with its detail |
| Settlement.Game.HandFans | GameServer/Game.cpp:898-910 | the hand's part is the product of its fans, in any order, each fan that multiplies named once |
| Settlement.Game.TotalForWinner | GameServer/Game.cpp:1035-1074 | step 2: the winner gets the sum over the paying losers; his details have unique fan types, each minus the losers' details of that type |
| Settlement.Game.MergeDetails | GameServer/Game.cpp:1053-1071 | adding a loser's details, negated, keeps fan types unique |
| Settlement.Game.CalculateGangScore | GameServer/Game.cpp:1514-1649 | step 3: every score changes by the kong balance, and under each kong type the details added sum to that type's part of it |
| Settlement.Game.GangsOf | GameServer/Game.cpp:1521-1647 | one player's kongs: what they add to his score and take from each other's, and the details of both by type |
| Settlement.SharesAreContribution | GameServer/Game.cpp:1521-1647 | what the four kong types show a player is what the kongs move his score by |
| Settlement.SharesAreBalance | GameServer/Game.cpp:1514-1649 | so the kong details of each player sum to his kong balance |
| Settlement.Game.PayMingGang | GameServer/Game.cpp:1584-1622 | what one player pays for another's open kongs, and details of that sum; the discarder pays three shares in 建平 |
| Settlement.Game.SettleLiability | GameServer/Game.cpp:1094-1120 | step 4: other losers get their share back, the discarder bears it, and one more detail of his shows exactly that |
| Settlement.Game.OnLiuJu | GameServer/Game.cpp:1651-1683 | a drawn game: kong balances, unless 荒庄 cancels them |
| TaskScheduler.TaskScheduler.Dispatch | GameServer/TaskScheduler.cpp:59-92 | with handlers that put work back at or after the end of the task that ran: nothing due is left, tasks run in order of end time (first inserted first on ties), and every task queued before ran if it was due and is still queued if not; for any number of rounds after which it ends |
| TaskScheduler.RoundsOrder | GameServer/TaskScheduler.cpp:59-92 | after any number of rounds, the dispatch being over or not, the tasks have run in order and none is lost, also when handlers do not delay at all |
| TaskScheduler.DispatchOrder | GameServer/TaskScheduler.cpp:59-92 | the same for a dispatch that is over, where nothing due is left |
| TaskScheduler.DelayEnds | GameServer/TaskScheduler.cpp:59-92 | when handlers delay by at least d > 0 the dispatch ends, after no more rounds than the work that was due |
| TaskScheduler.SpinningNeverEnds | GameServer/TaskScheduler.cpp:59-92 | a due task whose handler always repeats it without any delay keeps the dispatch from ever ending, whatever else is queued |
| TaskScheduler.OrderStep | GameServer/TaskScheduler.cpp:75-88 | one round keeps the running order even when a handler puts its work back with no delay at all |
| TaskScheduler.RunStep | GameServer/TaskScheduler.cpp:75-88 | with a delay of at least d > 0 every round leaves less work |
| TaskScheduler.InsertedIsOrdered | GameServer/TaskScheduler.cpp:94-97 | inserting keeps the queue ordered, newest last among equal end times |
| TaskScheduler.TaskQueue.Push | GameServer/TaskScheduler.cpp:94-97 | inserts behind every task that does not end later |
| TaskScheduler.TaskQueue.Pop | GameServer/TaskScheduler.cpp:99-104 | takes the first task and nothing else |
| TaskScheduler.TaskQueue.RemoveIf | GameServer/TaskScheduler.cpp:116-129 | keeps exactly the tasks of other groups than the one named, none when no group is named, in their order |
| TaskScheduler.TaskQueue.ModifyIf | GameServer/TaskScheduler.cpp:131-148 | the tasks named, or all, end later by the amount or at the point given and all others as before: the queue holds each task so changed and no other, and stays ordered |
| TaskScheduler.ModifyKeepsTasks | GameServer/TaskScheduler.cpp:131-148 | taking the selected tasks out, changing them and putting them back keeps every task once |
| TaskScheduler.ModifyChanges | GameServer/TaskScheduler.cpp:131-148 | taking out, changing and putting back leaves exactly the tasks as they are to be changed, each as often as before |
| TaskScheduler.MoveKeepsTasks | GameServer/TaskScheduler.cpp:133-145 | each task is either kept or moved, once |
| TaskScheduler.PutBackKeepsTasks | GameServer/TaskScheduler.cpp:147 | putting the moved tasks back adds each of them once |
| TaskScheduler.TaskScheduler.ScheduleAt | GameServer/TaskScheduler.h:357-374 | the task ends its delay after the given time, whatever the clock says |
| TaskScheduler.TaskScheduler.Invoke | GameServer/TaskScheduler.h:463-474 | a handler that repeats its task has it end the new duration after it ended before, with that duration and one more repetition counted; one that schedules a task has it start where this one ended; the queue is the old one with that task inserted |
| TaskScheduler.TaskScheduler.Update | GameServer/TaskScheduler.h:198-206 | advances the clock by the difference and dispatches, with the guarantees of `Dispatch` |
| TaskScheduler.TaskScheduler.RunFor | GameServer/TaskScheduler.h:198-206 | any sequence of updates: every task that repeats itself has run once per full period of its own since it was scheduled, however the time is cut into updates and whatever the other queued tasks do; when all tasks repeat themselves the queue still holds the same tasks |
| TaskScheduler.RoundsAlive | GameServer/TaskScheduler.cpp:59-92 | a task that repeats itself stays queued, in phase and not overdue, over any number of rounds, whatever the others finish, spawn or repeat |
| TaskScheduler.RanOncePerPeriod | GameServer/TaskScheduler.h:463-474 | a task in phase and not overdue has run exactly once per full period |
| TaskScheduler.DoMatch | GameServer/PlayerMatch.cpp:60-115 | the matching round, repeated every 500 ms, has run floor(T/500) times after any updates |
| ByteBuffer.RoundTrip | CenterServer/ByteBuffer.h:133-195 | a flushed packet of any mixed script is read back to the same values, without a position exception, exactly when no packed number follows pending bits (other than 0 after zero bits) |
| ByteBuffer.ReadsBackIff | CenterServer/ByteBuffer.h:133-195 | the same from any point of the script, for any state of the buffer |
| ByteBuffer.PackedAfterBitIsLost | CenterServer/ByteBuffer.h:621-632 | one bit and then the packed number 1 are not read back |
| ByteBuffer.Transfer | CenterServer/ByteBuffer.h:133-503 | the methods themselves: a script written into a buffer item by item, flushed and read back gives the same values, without a position exception, exactly when no packed number is misplaced |
| ByteBuffer.WriteAll | CenterServer/ByteBuffer.h:133-185 | the writing half leaves exactly the encoded packet, to be read from its start |
| ByteBuffer.WriteItem | CenterServer/ByteBuffer.h:133-185 | each writer adds its item and leaves the read position |
| ByteBuffer.ReadItem | CenterServer/ByteBuffer.h:169-503 | each reader takes its item from where the last one stopped, or raises the position exception, and leaves a state the next one can start from |
| ByteBuffer.TakeStep | CenterServer/ByteBuffer.h:465-503 | the reader, in step with the writer, reads one safe item and is in step again |
| ByteBuffer.TakeBitsStep | CenterServer/ByteBuffer.h:169-195 | a bit field is read back across bytes already filled and the byte still pending |
| ByteBuffer.TakePackedItem | CenterServer/ByteBuffer.h:492-503 | a packed number written at a byte boundary is read back by mask and non-zero bytes |
| ByteBuffer.FieldNumber | CenterServer/ByteBuffer.h:181-195 | a number that fits its field is rebuilt from the bits written, the highest first |
| ByteBuffer.IntRoundTrip | CenterServer/ByteBuffer.h:465-480 | a fixed-width integer is rebuilt from its little-endian bytes |
| ByteBuffer.BitIsDigit | CenterServer/ByteBuffer.h:169-195 | bit i of a number is its binary digit of weight 2 to the i |
| ByteBuffer.ByteIsDigit | CenterServer/ByteBuffer.h:465-480 | byte i of a fixed-width integer is its digit of weight 256 to the i: the lowest byte goes first |
| ByteBuffer.PackedForm | CenterServer/ByteBuffer.h:621-651 | a packed number: bit i of the mask is set exactly when byte i of the number is not zero, and the bytes that follow are those, in the order of their places |
| ByteBuffer.BitWritten | CenterServer/ByteBuffer.h:153-166 | a bit goes behind all those written, which stay as they are |
| ByteBuffer.FieldWritten | CenterServer/ByteBuffer.h:181-186 | bit fields lie end to end, the highest bit of each first, from the highest bit of each byte down |
| ByteBuffer.FlushedBits | CenterServer/ByteBuffer.h:133-142 | a flush stores the pending bits and fills the byte up with zeros |
| ByteBuffer.PacketOf | CenterServer/ByteBuffer.h:308-632 | a packet of one item: the characters and a zero; the bytes of the integer; the mask and the bytes that are not zero |
| ByteBuffer.StrTaken | CenterServer/ByteBuffer.h:395-406 | a string is read up to the first zero, which is passed over, or to the end of the packet |
| ByteBuffer.ByteBuffer.FlushBits | CenterServer/ByteBuffer.h:133-142 | a pending byte is appended and the position reset; otherwise nothing happens |
| ByteBuffer.ByteBuffer.AppendBytes | CenterServer/ByteBuffer.h:594-604 | appends the bytes after flushing |
| ByteBuffer.ByteBuffer.AppendSource | CenterServer/ByteBuffer.h:594-604 | what this means for the bits written: pending bits padded to a byte, then the bytes; the read position stays |
| ByteBuffer.ByteBuffer.WriteBit | CenterServer/ByteBuffer.h:153-167 | the bit follows those written; a full byte is stored |
| ByteBuffer.ByteBuffer.WriteBits | CenterServer/ByteBuffer.h:181-185 | a field's bits, the highest first |
| ByteBuffer.ByteBuffer.WriteStr | CenterServer/ByteBuffer.h:308-314 | the characters, if any, then the zero |
| ByteBuffer.ByteBuffer.PackUInt64 | CenterServer/ByteBuffer.h:634-652 | the mask of the non-zero bytes, and those bytes, lowest first |
| ByteBuffer.ByteBuffer.AppendPackedUInt64 | CenterServer/ByteBuffer.h:621-632 | mask and bytes appended; the mask is stored at the position taken before the pending bits are flushed |
| ByteBuffer.ByteBuffer.OverwriteBits | CenterServer/ByteBuffer.h:229-244 | `PutBits` changes exactly the addressed bits, to the value's bits, and no others |
| ByteBuffer.ByteBuffer.ReadBytes | CenterServer/ByteBuffer.h:465-480 | drops leftover bits and reads the bytes, or raises the position exception |
| ByteBuffer.ByteBuffer.ReadBit | CenterServer/ByteBuffer.h:169-179 | the next bit, from a new byte when the last one is used up |
| ByteBuffer.ByteBuffer.ReadBits | CenterServer/ByteBuffer.h:187-195 | the number rebuilt from its bits, the highest first |
| ByteBuffer.ByteBuffer.ReadStr | CenterServer/ByteBuffer.h:395-406 | characters up to a zero or the end of the packet |
| ByteBuffer.ByteBuffer.ReadPackedUInt64 | CenterServer/ByteBuffer.h:492-496 | reads the mask, then the number |
| ByteBuffer.ByteBuffer.ReadMasked | CenterServer/ByteBuffer.h:498-503 | byte i is read exactly when bit i of the mask is set |
| Wall.DealtOnce | GameServer/Game.cpp:1428-1445 | over every run of front draws, tail draws and bonus rolls the game allows: the list stays a suffix of the shuffle, no tile is dealt twice, none put aside is dealt, reserved indices stay within 12 or their number, and `GetRemainCount` counts the tiles neither dealt nor put aside |
| Wall.RunKeeps | GameServer/Game.cpp:1688-1702 | the invariant behind it holds after every step of a run |
| Wall.TailStep | GameServer/Game.cpp:1428-1445 | a tail draw keeps the account, and yields as many tiles as asked while that many are left |
| Wall.TailTakes | GameServer/Game.cpp:1428-1445 | a tail draw puts aside free indices, each smaller than every index left free: as many as asked for, one when none is asked for, all that are free when there are fewer |
| Wall.FrontStep | GameServer/Game.cpp:1688-1702 | a front draw that leaves twelve tiles keeps the account |
| Wall.BaoStep | GameServer/Game.cpp:1752-1760 | a bonus roll keeps the account |
| Wall.SmallestFree | GameServer/Game.cpp:1433-1442 | the tail indices taken are the smallest free ones, and none is skipped |
| Wall.FrontDealsUsedTile | GameServer/Game.cpp:1692-1699 | a front draw deals a tile already out exactly when an index beyond what the list will hold is reserved |
| Wall.SharingDealsBonusTile | GameServer/Game.cpp:1447-1475 | a game ended by `CheckLiuJu` after two bonus rolls of 6: of the four tiles it shares out, the third is the bonus tile put aside |
| Wall.FrontDealsTailTile | GameServer/Game.cpp:1692-1699 | after one tail draw, a front draw of the whole list (which no game makes) deals its last tile twice |
| Wall.BaoShowsFreshTile | GameServer/Game.cpp:1752-1762 | the bonus tile shown is still in the wall exactly when the roll or the place six further on is free |
| Wall.BaoShowsDealtTile | GameServer/Game.cpp:1752-1762 | after seven tail draws a roll of 1 shows a tile a player holds |
| Wall.GuardedIsAllowed | GameServer/Game.cpp:1447-1451 | drawing single tiles only while `CheckLiuJu` lets the game go on is allowed in this sense when at least eight tiles end the game |
| Wall.DealtTiles | GameServer/Game.cpp:1428-1445 | the tiles the draws return are those at the places the account records |
| Wall.Game.FaPai | GameServer/Game.cpp:1688-1702 | takes the first tiles off the list, or nothing when there are too few |
| Wall.Game.TailPai | GameServer/Game.cpp:1428-1445 | puts the smallest free tail indices aside and returns their tiles; the list is unchanged |
| Wall.Game.GetBaoPai | GameServer/Game.cpp:1752-1762 | reserves the rolled index, or the one six further on, and shows its tile; for every list that is long enough for that index |
| PlayerTiles.EveryTurn | GameServer/Player.cpp:4853-4902 | after the deal, over every run of steps in any order, also while a kong is being robbed: melds are aligned triples and the weighted count is 13, 14, or 10 while a kong is being robbed, in all states, exactly when every step of the run is on turn (which the code asks for 吃, 碰 and discards only); and then exactly one of `ShouldZhuaPai` and `ShouldDaPai` holds outside robbing |
| PlayerTiles.ApplySteady | GameServer/Game.cpp:525-760 | from every such state, a draw, discard, 听, 吃, 碰, kong with its replacement draw, robbed kong, giving up, or tile shared out leads to such a state exactly when the step is on turn |
| PlayerTiles.FreeSteady | GameServer/Game.cpp:525-760 | the same while no kong is being robbed: giving up a robbery is never on turn then, a tile shared out only at 13 |
| PlayerTiles.RobbedSteady | GameServer/Game.cpp:525-760 | while one is being robbed, exactly its robbers' giving up and the steps that move no tile keep the count |
| PlayerTiles.GivenUpTwice | GameServer/Player.cpp:3915-3921 | a robbery given up when none is on counts three tiles too many: 16 or 17, and 17 from 14, with the hand and its test unchanged |
| PlayerTiles.FenZhangEffect | GameServer/Player.cpp:4264-4282 | a tile shared out at the end is taken whatever the count |
| PlayerTiles.SharedAtFourteen | GameServer/Player.cpp:4264-4282 | two tiles and four kongs, to discard: the tile shared out leaves 15 |
| PlayerTiles.ExactlyOne | GameServer/Player.cpp:4876-4902 | 13 means draw and 14 means discard, never both |
| PlayerTiles.KongKeepsTurn | GameServer/Player.cpp:3577-3659 | a kong with its replacement draw, of one tile or none, keeps the turn count exactly when it is not laid down from the player's own tiles on the drawing side: `CheckGangPai` does not ask |
| PlayerTiles.FengKongKeepsTurn | GameServer/Player.cpp:4146-4192 | a wind kong with its replacement keeps the turn count exactly on the discarding side |
| PlayerTiles.ZhuiKongKeepsTurn | GameServer/Player.cpp:3944-3967 | adding to a wind or dragon kong, with its replacement, likewise |
| PlayerTiles.DrawToTurn | GameServer/Player.cpp:4284-4294 | after a step that left a count of 12 the replacement draw is refused and neither test holds; from 13 or 14 the draw ends in turn |
| PlayerTiles.UnguardedKong | GameServer/Player.cpp:3577-3659 | such a kong exists: four equal tiles and three kongs, to draw, pass the test and leave a count of 12 |
| PlayerTiles.UnguardedFengKong | GameServer/Player.cpp:4146-4192 | four winds and three kongs, to draw: the wind kong is accepted and leaves a count of 12 |
| PlayerTiles.UnguardedZhuiKong | GameServer/Player.cpp:3944-3967 | a wind tile beside a wind kong and three others, to draw: it is added and leaves a count of 12 |
| PlayerTiles.TingKeepsTurn | GameServer/Player.cpp:968-987 | declaring 听 with a held tile keeps the turn count exactly on the discarding side: the TINGPAI case asks `CanTingPai` only |
| PlayerTiles.ReadyOnTheDrawingSide | GameServer/Player.cpp:968-987 | thirteen tiles to draw, 听 on 中: the search accepts the hand with 9条, as a pair, three triplets and a second pair, so does `CanTingPai` where the room's other rules allow it, and 12 tiles are left with neither test |
| PlayerTiles.SearchAcceptsTwoPairs | GameServer/Player.cpp:2111-2135 | the search answers true on these thirteen tiles |
| PlayerTiles.RobbedLeavesTen | GameServer/Player.cpp:3881-3913 | a kong being robbed leaves a count of 10 exactly when it was laid down on its turn: one of the player's own tiles to discard, or three and a claimed one to draw; three held tiles at 14 leave 11 |
| PlayerTiles.RobbedAtFourteen | GameServer/Player.cpp:3577-3660 | three equal tiles of five and three kongs, to discard: the kong of the three passes the test and leaves 11 while it is robbed |
| PlayerTiles.GangEffect | GameServer/Player.cpp:3811-3879 | a kong changes the weighted count by one when the player lays down four of his own tiles, and not when three meet a claimed fourth |
| PlayerTiles.TakeGangEffect | GameServer/Player.cpp:3855-3876 | the tiles a kong takes: all copies in the hand, and the three laid out exactly when there are three |
| PlayerTiles.GivingUpRestores | GameServer/Player.cpp:3881-3921 | a kong robbed and then given up is the kong it would have been exactly when the player recorded, who is its owner, is the source it would have had: the one the client sent for three tiles of the hand, the one the server kept for three laid out |
| PlayerTiles.GivingUpForgetsFeeder | GameServer/Game.cpp:631-656 | three tiles of the hand and a discard, robbed and given up: the kong names its owner as the source, not the discarder |
| PlayerTiles.ChiEffect | GameServer/Player.cpp:3449-3521 | 吃 takes two held tiles and lays out a run, or moves nothing; no face exceeds four and melds stay aligned |
| PlayerTiles.PengEffect | GameServer/Player.cpp:3523-3575 | 碰 takes two equal tiles and lays out a triplet, or moves nothing |
| PlayerTiles.PongIsOneMeld | GameServer/Player.cpp:3866-3875 | removing the three equal tiles found one after the other removes one whole meld |
| PlayerTiles.FengEffect | GameServer/Player.cpp:4168-4192 | the wind kong takes four tiles and counts as three |
| PlayerTiles.JianEffect | GameServer/Player.cpp:4216-4234 | the dragon kong takes three tiles and counts as three |
| PlayerTiles.ZhuiFengEffect | GameServer/Player.cpp:3944-3967 | the tile added leaves the hand and is not counted again |
| PlayerTiles.DrawEffect | GameServer/Player.cpp:4284-4362 | tiles are taken exactly when the count asks for a draw |
| PlayerTiles.DiscardEffect | GameServer/Player.cpp:800-833 | one tile goes exactly when the count asks for a discard and the tile is held |
| PlayerTiles.DiscardTiles | GameServer/Player.cpp:800-833 | a discard: the tile named leaves the hand when the hand has 2, 5, 8, 11 or 14 tiles and holds it; otherwise no tile moves |
| PlayerTiles.TingTiles | GameServer/Player.cpp:968-985 | 听: the tile named leaves the hand when it is held and accepted, and no other |
| PlayerTiles.DrawTiles | GameServer/Player.cpp:4284-4362 | a draw: the cards join the hand, each kind in order, exactly when it is empty or has 1, 4, 7, 10 or 13 tiles and the bonus tile did not win; otherwise nothing changes |
| PlayerTiles.SharedTile | GameServer/Player.cpp:4264-4282 | a tile shared out joins the hand, whatever it holds |
| PlayerTiles.DueBySize | GameServer/Player.cpp:4876-4902 | the two tests by the number of tiles: every third one, up to 13 and up to 14 |
| PlayerTiles.ChiTest | GameServer/Player.cpp:3388-3447 | a tile can be eaten exactly when it is of a suit, no discard is due, and two tiles held, not wild, complete a run of three with it |
| PlayerTiles.ChiTiles | GameServer/Player.cpp:3449-3521 | 吃: exactly when that holds and the two tiles named, not wild, make a run with the claimed one, they leave the hand and the run, in order, is laid out; the second one missing, the first is gone all the same |
| PlayerTiles.PengTiles | GameServer/Player.cpp:3523-3575 | 碰: with at least two of the tile held and no discard due exactly two of them leave the hand and three are laid out; otherwise nothing moves |
| PlayerTiles.KongTest | GameServer/Player.cpp:3577-3660 | a kong is allowed of three held; of four, where the room lets it through and 建平 does not ask for an open hand; else of the three laid out side by side, with one held or a claim of the player's own |
| PlayerTiles.KongTiles | GameServer/Player.cpp:3811-3879 | a kong: every copy leaves the hand, and the table when three lie there, and no other tile moves; recorded as open for three held, with the client's source, and for three laid out, with the server's, and as closed for four held |
| PlayerTiles.RobbedTiles | GameServer/Player.cpp:3881-3921 | a kong being robbed takes the same tiles and records nothing; given up, it is the last of the open kongs |
| PlayerTiles.WindKongTiles | GameServer/Player.cpp:4146-4192 | with the room's leave and one of each wind held those four leave the hand and the wind kongs are one more; otherwise nothing changes |
| PlayerTiles.DragonKongTiles | GameServer/Player.cpp:4194-4234 | likewise the three dragons and the dragon kongs |
| PlayerTiles.AddedTiles | GameServer/Player.cpp:3944-3995 | a tile added leaves the hand and joins the winds or dragons added, exactly when it is held and there is such a kong; the room's own test asks for a kong and any tile of its kind |
| PlayerTiles.Dealt | GameServer/Game.cpp:74-91 | the deal of 13 tiles, or 14 for the banker, starts in turn |
| PlayerTiles.Player.GetCardCount | GameServer/Player.cpp:4853-4863 | counts the tiles of all kinds |
| PlayerTiles.Player.ShouldZhua | GameServer/Player.cpp:4876-4888 | an empty hand, or 13, 10, 7, 4 or 1 tiles |
| PlayerTiles.Player.ShouldDa | GameServer/Player.cpp:4890-4902 | 14, 11, 8, 5 or 2 tiles |
| PlayerTiles.Player.CmdDaPai | GameServer/Player.cpp:800-833 | exactly the tile named leaves the hand when a discard is due and it is held; error 3 when none is due, 4 when it is not held, and then the hand is as before |
| PlayerTiles.Player.FaPai | GameServer/Player.cpp:4284-4362 | the tiles join the hand, sorted kind by kind, when it is empty or has 1, 4, 7, 10 or 13 tiles |
| PlayerTiles.Player.FenZhang | GameServer/Player.cpp:4264-4282 | the tile joins the hand, without a test, each kind sorted |
| PlayerTiles.Player.CheckChi | GameServer/Player.cpp:3388-3447 | the three ways to eat a tile, none with a wild tile, on the drawing side only |
| PlayerTiles.Player.Chi | GameServer/Player.cpp:3449-3521 | two named tiles of the claimed kind that make a run with it leave the hand, and the sorted run is laid out |
| PlayerTiles.Player.CheckPeng | GameServer/Player.cpp:3523-3546 | two equal tiles held, on the drawing side only |
| PlayerTiles.Player.Peng | GameServer/Player.cpp:3548-3575 | exactly two copies of the tile leave the hand when two are held and no discard is due; three are laid out |
| PlayerTiles.Player.CheckGang | GameServer/Player.cpp:3577-3660 | three or four in the hand, or one (or the player's own claim) on a triplet laid out, under the room's rules; false for another player's discard of a kind the hand has no row for |
| PlayerTiles.Player.LayDownGang | GameServer/Player.cpp:3811-3879 | the kong: tiles removed, and recorded as open or closed with its source |
| PlayerTiles.Player.BeenQiangGang | GameServer/Player.cpp:3881-3913 | the tiles of a kong being robbed are removed, and nothing is recorded |
| PlayerTiles.Player.BeenQiangGangWithGivingUp | GameServer/Player.cpp:3915-3921 | the kong is recorded when the robbers give up |
| PlayerTiles.Player.CheckWindOrDragon | GameServer/Player.cpp:4146-4166 | one of each wind, or of each dragon, is held and the room allows it |
| PlayerTiles.Player.GangFengPai | GameServer/Player.cpp:4168-4192 | exactly the four winds leave the hand when all are held and the room allows it, and the wind kongs are one more; else nothing changes |
| PlayerTiles.Player.GangJianPai | GameServer/Player.cpp:4216-4234 | exactly the three dragons leave the hand when all are held and the room allows it, and the dragon kongs are one more; else nothing changes |
| PlayerTiles.Player.GangZhuiFeng | GameServer/Player.cpp:3944-3967 | the tile joins the wind or dragon kong when there is one |
| Claims.ClaimRound | GameServer/Game.cpp:1246-1297 | after a discard at most three players are asked, each once, in the order of the stable sort by smallest operation code, and then nobody is pending |
| Claims.DrainIsStableSort | GameServer/Game.cpp:1246-1297 | repeated calls on any list of claims of different players ask in the order of the stable sort by best code, earlier places first on ties |
| Claims.SortIsOrdered | GameServer/Game.cpp:1246-1297 | that order has non-decreasing best codes and the same claims |
| Claims.ScanFindsBest | GameServer/Game.cpp:1252-1278 | the scan over codes and claims finds the earliest claim with the smallest code still offered |
| Claims.AskedOffers | GameServer/Game.cpp:1246-1297 | the claim asked has, beside one of its tiles, a code as small as any of any claim; nobody is asked exactly when no claim has a code the scan looks for |
| Claims.AskOne | GameServer/Game.cpp:1278-1294 | the one asked is that claimant, and exactly his claim goes |
| Claims.PendingIs | GameServer/Game.cpp:1307-1361 | pending claims belong to different players, in the order of the seats after the current one, never the discarder; each is about this one tile, 吃 only for the next seat |
| Claims.SeatClaimIs | GameServer/Game.cpp:1337-1357 | a pending claim is about this one tile and offers what the seat's own test returned, 吃 struck out except for the next seat |
| Claims.ListedClaim | GameServer/Game.cpp:1320-1357 | the claim listed for a seat is about the tile discarded and the player who discarded it, and has each code the seat's own test returned, but for one 吃 of a seat that is not the next |
| Claims.EveryClaimIsListed | GameServer/Game.cpp:1320-1357 | a seat is listed exactly when it is not the current seat, not the discarder's, and has something to do |
| Claims.DiscardIsOffered | GameServer/Game.cpp:381-412 | with the discarder at the current seat, as the only caller sees to: the list holds exactly the other players with something to do |
| Claims.MissedClaim | GameServer/Game.cpp:1318-1324 | what the caller has to see to: with any other player at the current seat, this player would not be listed, whatever he could do |
| Claims.Game.CheckPai | GameServer/Game.cpp:1307-1361 | builds that list from scratch; false when it is empty or the discarder is not seated |
| Claims.Game.SendCheckRtn | GameServer/Game.cpp:1246-1297 | asks one claimant, keeps his claim as the operation waited for, and erases it from the list |
| Claims.Game.CheckQiangGang | GameServer/Game.cpp:1379-1411 | appends a claim for every player but the owner who wins on the tile, in turn order; the list is not cleared |
| Claims.Game.OnGiveUp | GameServer/Game.cpp:631-661 | a pass: a robber's records the kong for its owner, anybody else's asks the next claim of the list |
| Claims.PassMeans | GameServer/Game.cpp:631-661 | a pass of the player asked about a kong records that kong for its owner and leaves the list; any other asks one claim more, which goes off the list, while some claim has a code to ask about |
| Claims.Game.CheckRobbing | GameServer/Game.cpp:1363-1377 | this player is being asked whether to rob a kong |
| Claims.RobbersAre | GameServer/Game.cpp:1379-1411 | with the owner at the current seat the robbers are exactly the other players who win on the tile, each once, in turn order, all about this kong |
| Claims.AskedAnyway | GameServer/Game.cpp:583-661 | until the next discard is checked the claims are asked in the order of the stable sort, one a pass, whatever claims are carried out in between: none is taken off the list |
| Claims.LeftoverIsAsked | GameServer/Game.cpp:583-661 | after a claim was carried out, the next pass asks somebody about a tile that is gone exactly when that claim was not the last of the sort |
| Claims.ErasesAsked | GameServer/Game.cpp:1288-1294 | the claim erased is the one asked exactly when the same player has none before it in the list |
| Claims.QuestionStays | GameServer/Game.cpp:1288-1294 | a player with 吃 left over who may rob the kong: his 吃 is erased, his question stays on the list |
| Claims.RecordedPerRobber | GameServer/Game.cpp:631-661 | when all pass, a kong is recorded once for every claim to rob it |
| RobbedKong.RecordedForEachRobber | GameServer/Game.cpp:525-545 | with any claims left over from the discard: all pass, and the owner's kongs grow by one copy for each robber |
| RobbedKong.TurnKeptForOneRobber | GameServer/Game.cpp:631-656 | the count stays right over these passes exactly when there is one robber |
| RobbedKong.TwoRobbers | GameServer/Game.cpp:525-661 | two robbers: after the first pass the second question is still on the list, the owner's own pass asks it, and the kong is recorded again |
| RobbedKong.PaidForEachRecord | GameServer/Game.cpp:1588-1622 | each further record of a kong is paid in full once more |
| RobbedKong.FeederIsSpared | GameServer/Game.cpp:1592-1612 | 建平: with the feeder as its source he pays three shares and the others none, with its owner as its source everybody pays one |
| Clan.CardsAlwaysSuffice | CenterServer/Clan.cpp:533-567 | over every run of admissions, starts, syncs, ends, late syncs of finished rooms and purchases: the cards of all rooms still to be played are covered by the balance, the balance is not negative, the list shows each room once, and at most one room over the limit, not counting finished rooms that a late sync listed again |
| Clan.NeverUnpaid | CenterServer/Clan.cpp:547-553 | no start in any such run meets the branch that cannot take the cards; it takes exactly the room's cost |
| Clan.Ledger | CenterServer/Clan.cpp:512-531 | the balance is what was there, plus purchases, minus the cost of each room started, once |
| Clan.StepKeeps | CenterServer/Clan.cpp:533-640 | one step keeps the cover and the list |
| Clan.StepLimited | CenterServer/Clan.cpp:569-637 | one step keeps the bound on the list: one room over the limit, and those that late syncs listed again |
| Clan.AdmissionPassesLimit | CenterServer/Player.cpp:686-687 | an admitted room takes the list past the limit exactly when the list already had as many rooms as the limit |
| Clan.AdmittedWhenCovered | CenterServer/Player.cpp:668-709 | a new room is admitted exactly when the list is not past its limit, there is card data and the balance would still cover every room to be played with this one among them; each refusal has its own error |
| Clan.LimitIsPassedByOne | CenterServer/Player.cpp:686-687 | at limit 0 the first room is admitted |
| Clan.LateSyncPassesLimit | GameServer/Room.cpp:290-295 | at limit 0: a room played and over, the next one created, and a player leaving the first: two rooms are listed |
| Clan.Player.CheckCreateRoom | CenterServer/Player.cpp:668-709 | admission: free or not a clan room; else clan and limit data found, the room limit, card data, and the cost of this room with that of all rooms not yet played against the balance, each with its error, in this order |
| Clan.Player.NeededCards | CenterServer/Player.cpp:692-704 | the loop adds up this room and every room not played yet |
| Clan.Clan.OnRoomStart | CenterServer/Clan.cpp:539-555 | takes one card for every full number of rounds a card is worth, when the balance has them; nothing for a room that costs none, nothing and a report when they are missing |
| Clan.Clan.OnRoomOver | CenterServer/Clan.cpp:569-581 | the room leaves the table and the list; the balance and every other room stay |
| Clan.Clan.OnRoomSync | CenterServer/Clan.cpp:626-637 | the room is stored, and listed last if it was not listed; the balance and every other room stay |
| Clan.Clan.GetRoomGamingCount | CenterServer/Clan.cpp:311-323 | rooms with a game played or in play |
| Clan.Clan.GetRoomNoPlayedCount | CenterServer/Clan.cpp:325-337 | the rooms without any game |
| Room.BankerRotation | GameServer/Room.cpp:728-759 | over every run: the round count is one more than the games that somebody won who was not on the banker's seat, the banker's seat is a seat and, outside 建平, that number modulo four |
| Room.StartsWhileRoundsRemain | GameServer/Room.cpp:1008-1032 | a game starts exactly while fewer games than rounds opened were won by somebody not on the banker's seat; only the very first game starts in a room opened for 0 rounds too; the match is over exactly when that number is reached |
| Room.RoomForNothingStarts | GameServer/Room.cpp:350-452 | a room opened for 0 rounds plays its first game and no other |
| Room.WinnerTakesBank | GameServer/Room.cpp:738-749 | 建平: the winner has the next bank; elsewhere the bank stays with a winning banker and else moves by one seat |
| Room.DrawKeepsBank | GameServer/Room.cpp:738-749 | after a drawn game the bank and the round count stay, and the next game starts if rounds are left by that count |
| Room.SettledWhenLost | GameServer/Room.cpp:751-832 | the end of a game shows the final settlement exactly when some game was played and the room is dismissed or, with this game, as many games as rounds opened were won by somebody not on the banker's seat |
| Room.GameOver | GameServer/Room.cpp:728-832 | the end of a game: a drawn game and a winning banker change neither bank nor count; anybody else's win adds a round and moves the bank to the winner in 建平 and else to the next seat; the records are cleared exactly when the final settlement is shown |
| Room.FinalTotalsCancel | GameServer/Room.cpp:780-812 | the totals of the four players sum to 0 when every recorded game does |
| Room.TotalsCancel | GameServer/Room.cpp:793-796 | the four totals cancel out when each recorded game does |
| Room.TotalsShare | GameServer/Room.cpp:793-796 | the four totals sum to all that was recorded, whatever it is |
| Room.ScoreOfEntry | GameServer/Room.cpp:793-796 | a player's score in a record is that of his own entry, and 0 when he has none |
| Room.TotalsAddUp | GameServer/Room.cpp:793-796 | a game recorded adds to each total exactly that player's score; without records all totals are 0 |
| Room.Room.OnStart | GameServer/Room.cpp:340-355 | a game starts exactly when it may and the round count is not past the rounds opened: banker named, round count started with the first game, nothing else changed |
| Room.Room.OnGameOver | GameServer/Room.cpp:728-832 | the bank and the round count as after this game; the totals of the recorded games, seat by seat, exactly when the match is over or the room dismissed and some game was played, and then the records are cleared; nothing else changes |
| Room.Room.GetPlayerOrder | GameServer/Room.cpp:1436-1447 | the seat of a player, or -1 |
| Room.Room.TotalOf | GameServer/Room.cpp:793-796 | a player's scores over all records |
| Match.MatchConservesPoints | GameServer/Room.cpp:780-812 | over a whole match: whatever games are settled among the four players, won or drawn, each player's final total is the sum of his own scores in them; together the totals are the points those games created, which is 0 exactly when in each of them the open kongs that scored were fed at the table |
| Match.GameIsBalanced | GameServer/Game.cpp:842-1120 | the record one settled game leaves has only seated players in it, sums to the points the game created, and is balanced exactly when it was fed |
| Match.GameCancels | GameServer/Game.cpp:1651-1683 | won or drawn, the four scores of a game sum to the points nobody was charged for, which is 0 exactly when it was fed |
| FrameQueue.WireAndQueue | NetWork/Socket.h:98-205 | for any messages, partial writes and would-blocks: bytes on the wire followed by bytes queued are the frames entered, in order, exactly when no write took zero bytes |
| FrameQueue.ZeroWriteLosesMessage | NetWork/Socket.h:181-189 | one message and a write of no bytes: the message is neither queued nor on the wire |
| FrameQueue.MessagesArrive | NetWork/Socket.h:114-205 | messages of 1 to 65533 bytes, all written: reading the wire gives exactly the messages, in order |
| FrameQueue.MessageArrives | NetWork/Socket.h:114-205 | one message from end to end: after whatever writes, the wire reads back as it exactly when it has 1 to 65533 bytes, its frame has left the queue and no write took zero bytes |
| FrameQueue.FullWritesSend | NetWork/Socket.h:114-205 | with writes that take all they are offered, it arrives exactly when it has 1 to 65533 bytes |
| FrameQueue.NeverWritten | NetWork/Socket.h:155-156 | a frame of 65536 bytes or more is never written, over any run, and nothing behind it either |
| FrameQueue.HandleStream | NetWork/Socket.h:148-205 | one write moves bytes from the queue to the wire, or drops a frame |
| FrameQueue.HandleMeans | NetWork/Socket.h:148-205 | one write, case by case: what goes to the wire, what stays queued, when a notification is asked for, when the loop goes on, and that the socket closes exactly when a close was requested and the queue has emptied |
| FrameQueue.LoopDrains | NetWork/Socket.h:38-50 | with writes that take all they are offered the loop puts every queued frame on the wire |
| FrameQueue.UpToBadIs | CenterServer/WorldSession.cpp:51-82 | what the receive loop processes is the beginning of the bodies up to the first that does not parse, and all of them when every one does |
| FrameQueue.BodiesOfFrames | CenterServer/WorldSession.cpp:51-82 | whole frames are read back as exactly their bodies |
| FrameQueue.FramesAreWhole | CenterServer/WorldSession.cpp:51-82 | what frames put on the wire is a chunk the receive loop accepts |
| FrameQueue.LoopIsRun | NetWork/Socket.h:47 | the loop of `Update` is a run of single writes |
| FrameQueue.Socket.EnterQueue | NetWork/Socket.h:114-146 | queues header and body, the body cut to the sixteen-bit size; nothing for a size of 0; the frame fits the send buffer exactly when that size is not 65535 |
| FrameQueue.Socket.HandleQueue | NetWork/Socket.h:148-205 | one write of the front frame: kept, shortened, popped or dropped, and whether the loop goes on |
| FrameQueue.Socket.AsyncProcessQueue | NetWork/Socket.h:98-106 | requests a notification exactly when none is pending, so there is never a second one |
| FrameQueue.Socket.WriteHandlerWrapper | NetWork/Socket.h:108-112 | the notification arrives: the flag is cleared, none is pending, and one write is tried |
| FrameQueue.Socket.Update | NetWork/Socket.h:38-50 | writes until the queue is empty or the socket would block |
| FrameQueue.WorldSession.InitializeHandler | CenterServer/WorldSession.cpp:51-82 | on a chunk of whole frames the loop ends and processes exactly the bodies up to the first that does not parse |
## Left out

- The regional rules inside `Player::CheckHuPai` (夹胡, 边胡, 四归一 and so on): a win test, a
  fan set and a 幺九 test are parameters, functions of the tiles; fan multiples, which come from
  asset tables, are parameters too.
- 32-bit overflow of scores, fan products and card counts: integers are unbounded, except for
  the 16-bit frame size and the bytes of the codec, which are modelled. Player ids are not
  truncated to 32 bits as in `GetPlayerOrder`.
- Enumerations generated from protobuf files (tile kinds, fan types, operation codes, error
  codes of rooms and clans) are not part of this model; named constants stand for them, and only
  their order, where the code uses it, matters.
- Sockets, threads, mutexes, time, Redis, protobuf parsing, broadcasts, playback and logging:
  a `write_some` result, a parse failure and a clock difference are parameters, and a locked
  region is one step.
- Random choice: shuffles, dice and die rolls are arbitrary inputs.
- TaskScheduler.TaskScheduler.Dispatch: like `Update`, it is called with the number of rounds after
  which it ends (`TaskScheduler.DelayEnds` gives one), as a dispatch can also never end. A handler
  repeats its task, schedules another one, or neither; one that does both or schedules several is
  not modelled. Tasks are values, so contexts that share one task object after it ran are not
  modelled, nor are the queue of asynchronous calls, the validator that can abort a dispatch, and
  handlers that cancel or reschedule other tasks.
- TaskScheduler.TaskScheduler.RunFor: random durations are not modelled; a handler repeats with a
  duration that depends on its number and repeat counter.
- ByteBuffer.RoundTrip: bit fields have at most 32 bits, as the reader builds a 32-bit value;
  floating point, time fields, byte masks and the size limit of 10000000 bytes are not modelled.
- ByteBuffer.ByteBuffer.OverwriteBits: named so because `PutBits` is the function that writes bits.
- PlayerTiles.EveryTurn: the steps of a run bring a player no fifth tile of a face, eat with two held
  tiles, and draw one tile at most; they come in any order. That a client claims the tile on the
  table and no other is not modelled beyond this. Looking at the bonus tile may win before the draw;
  the game then ends.
- PlayerTiles.Player.CheckGang: with a player's own claim the kind is in the hand, as `CmdPaiOperate`
  has checked; without it the code reads past the end of its map.
- PlayerTiles.ReadyOnTheDrawingSide: the rules of the win test beyond the shape (幺九, three suits,
  站立胡) are a parameter that accepts the hand.
- PlayerTiles.Player.CheckChi: the flags outside the tiles (hosting, ready hand, open-hand and
  dragon rules) are one parameter, also for 碰; those of a kong are the record `GangRules`.
- Wall.DealtOnce: a front draw leaves at least twelve tiles and a count that is not negative;
  `Wall.GuardedIsAllowed` derives this from `CheckLiuJu`, but not for the four tiles shared out
  when the game is drawn (`Wall.SharingDealsBonusTile`). The list is long enough for a roll, and
  rolls are 1 to 6. A tile taken off the list that its player then refuses counts as dealt.
- Settlement.Game.Calculate: the details are specified step by step, not for the final records as a
  whole, and the detail that marks a plain win is not specified; the bonus-tile and match bookkeeping
  around the scores is left out.
- Claims.Game.CheckPai: the operations each player's own `CheckPai` returns are inputs, known
  codes each at most once; unseated players are not modelled.
- Claims.RecordedPerRobber: claims of different players. The code of 抢杠 is any code the scan looks
  for; the self-drawn wins `CheckLiuJu` appends to the list are not modelled.
- RobbedKong.TwoRobbers: that both players win on the tile is an input, as the rules of the win test
  are a parameter everywhere.
- Clan.CardsAlwaysSuffice: admission and the first sync are one step, START and its sync are one
  step, a room reports after its end only when it has been played, and rounds opened are not
  negative. Free-play activities, where nothing is reserved, and the history of battles are left out.
- Room.FinalTotalsCancel: streak counts, banker counts and the other counters shown with the totals
  are left out. `Match.MatchConservesPoints` joins the totals with the settlement of each game.
- Room.Room.OnStart: the other tests of `CanStarGame` (players ready, host, cards) are one
  parameter, and the cards it takes are left out.
- FrameQueue.Socket.EnterQueue: a body of 65535 bytes overruns the send buffer by one byte; what else
  that byte overwrites is not modelled.
- FrameQueue.WorldSession.InitializeHandler: chunks that end inside a frame are excluded; the code
  does not join chunks. The bodies that do not parse are a parameter.
- WinningHand.Player.CanHuPai: for hands of other sizes than 3n+2 (3n with the pair used) the records
  are not specified, only the answer.
- Login, mail, mall, rewards, activities, name filters and the other single-branch handlers.
