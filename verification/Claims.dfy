/** Claims on a discard: which players may act on it, and the order in which they are asked.
    The numbers stand for the server's `Asset::PAI_OPER_TYPE` enumeration, which is generated code
    and not part of this model; only their order matters. */
module Claims {
  import opened Tiles

  const MAX_PLAYER_COUNT: nat := 4

  const PAI_OPER_TYPE_HUPAI: int := 1
  const PAI_OPER_TYPE_GANGPAI: int := 2
  const PAI_OPER_TYPE_PENGPAI: int := 3
  const PAI_OPER_TYPE_CHIPAI: int := 4
  const PAI_OPER_TYPE_COUNT: int := 20

  /** One tile of an alert, and what the player may do with it. */
  datatype Alert = Alert(pai: Card, operList: seq<int>)

  /** `PaiOperationCache`: the player asked, the player whose tile it is, and the alert. */
  datatype Claim = Claim(playerId: int, sourcePlayerId: int, pais: seq<Alert>)

  predicate Offers(c: Claim, code: int) {
    exists i :: 0 <= i < |c.pais| && code in c.pais[i].operList
  }

  ghost predicate Distinct<T>(s: seq<T>) {
    forall i, j :: 0 <= i < j < |s| ==> s[i] != s[j]
  }

  // ------------------------------------------------------------------ asking one claimant

  /** The first claim of the list that offers `code`. */
  function FirstWith(list: seq<Claim>, code: int): Option<nat> {
    if list == [] then None
    else if Offers(list[0], code) then Some(0)
    else match FirstWith(list[1..], code) case None => None case Some(i) => Some(i + 1)
  }

  /** The scan of `SendCheckRtn`: codes upwards, for each code the list from the front. */
  function Scan(list: seq<Claim>, code: int): Option<nat>
    decreases PAI_OPER_TYPE_COUNT - code
  {
    if code > PAI_OPER_TYPE_COUNT then None
    else if FirstWith(list, code).Some? then FirstWith(list, code)
    else Scan(list, code + 1)
  }

  /** The smallest code a claim offers; above every code when it offers none the scan looks for. */
  function BestFrom(c: Claim, code: int): (r: int)
    requires code <= PAI_OPER_TYPE_COUNT + 1
    ensures code <= r && (r == PAI_OPER_TYPE_COUNT + 1 || (r <= PAI_OPER_TYPE_COUNT && Offers(c, r)))
    ensures forall k :: code <= k <= PAI_OPER_TYPE_COUNT && k < r ==> !Offers(c, k)
    decreases PAI_OPER_TYPE_COUNT - code
  {
    if code > PAI_OPER_TYPE_COUNT then PAI_OPER_TYPE_COUNT + 1
    else if Offers(c, code) then code
    else BestFrom(c, code + 1)
  }

  function Best(c: Claim): int {
    BestFrom(c, PAI_OPER_TYPE_HUPAI)
  }

  /** A claim the scan can find. */
  predicate Askable(c: Claim) {
    Best(c) <= PAI_OPER_TYPE_COUNT
  }

  lemma {:induction false} FirstWithIs(list: seq<Claim>, code: int)
    ensures match FirstWith(list, code)
            case None => forall i :: 0 <= i < |list| ==> !Offers(list[i], code)
            case Some(j) => j < |list| && Offers(list[j], code) && forall i :: 0 <= i < j ==> !Offers(list[i], code)
  {
    if list != [] && !Offers(list[0], code) {
      FirstWithIs(list[1..], code);
      if FirstWith(list[1..], code).None? {
        forall i | 0 <= i < |list| ensures !Offers(list[i], code) {
          assert i > 0 ==> list[i] == list[1..][i - 1];
        }
      } else {
        var j := FirstWith(list[1..], code).value;
        assert list[j + 1] == list[1..][j];
        forall i | 0 <= i < j + 1 ensures !Offers(list[i], code) {
          assert i > 0 ==> list[i] == list[1..][i - 1];
        }
      }
    }
  }

  /** The scan finds a claim with the smallest best code, the earliest of those. */
  lemma {:induction false} ScanFindsBest(list: seq<Claim>, code: int)
    requires code <= PAI_OPER_TYPE_COUNT + 1
    ensures match Scan(list, code)
            case None => forall i :: 0 <= i < |list| ==> BestFrom(list[i], code) > PAI_OPER_TYPE_COUNT
            case Some(j) =>
              && j < |list| && BestFrom(list[j], code) <= PAI_OPER_TYPE_COUNT
              && (forall i :: 0 <= i < |list| ==> BestFrom(list[j], code) <= BestFrom(list[i], code))
              && (forall i :: 0 <= i < j ==> BestFrom(list[j], code) < BestFrom(list[i], code))
    decreases PAI_OPER_TYPE_COUNT - code
  {
    if code <= PAI_OPER_TYPE_COUNT {
      FirstWithIs(list, code);
      if FirstWith(list, code).None? {
        ScanFindsBest(list, code + 1);
      } else {
        forall i | 0 <= i < |list| ensures BestFrom(list[i], code) >= code {
        }
      }
    }
  }

  /** `std::find_if` and `erase`: the list without the first claim of a player. */
  function Erase(list: seq<Claim>, playerId: int): seq<Claim> {
    if list == [] then []
    else if list[0].playerId == playerId then list[1..]
    else [list[0]] + Erase(list[1..], playerId)
  }

  lemma {:induction false} EraseAt(list: seq<Claim>, j: nat)
    requires j < |list| && forall i :: 0 <= i < j ==> list[i].playerId != list[j].playerId
    ensures Erase(list, list[j].playerId) == list[..j] + list[j + 1..]
  {
    if j > 0 {
      EraseAt(list[1..], j - 1);
      assert list[..j] + list[j + 1..] == [list[0]] + (list[1..][..j - 1] + list[1..][j..]);
    }
  }

  lemma {:induction false} EraseNone(list: seq<Claim>, playerId: int)
    requires forall i :: 0 <= i < |list| ==> list[i].playerId != playerId
    ensures Erase(list, playerId) == list
  {
    if list != [] {
      EraseNone(list[1..], playerId);
    }
  }

  /** One call of `SendCheckRtn`: who is asked, and the claims still pending. */
  function Ask(list: seq<Claim>): (Option<Claim>, seq<Claim>) {
    match Scan(list, PAI_OPER_TYPE_HUPAI)
    case None => (None, list)
    case Some(j) =>
      ScanFindsBest(list, PAI_OPER_TYPE_HUPAI);
      (Some(list[j]), Erase(list, list[j].playerId))
  }

  /** A code stands beside one of the tiles of a claim. */
  ghost predicate HasCode(c: Claim, code: int) {
    exists a <- c.pais :: code in a.operList
  }

  lemma OffersCode(c: Claim, code: int)
    ensures Offers(c, code) <==> HasCode(c, code)
  {
    if a :| a in c.pais && code in a.operList {
      var i :| 0 <= i < |c.pais| && c.pais[i] == a;
      assert code in c.pais[i].operList;
    }
    if i :| 0 <= i < |c.pais| && code in c.pais[i].operList {
      assert c.pais[i] in c.pais;
    }
  }

  /** The claim asked has a code as small as any of any claim; nobody is asked exactly when no claim has a
      code the scan looks for. */
  lemma AskedOffers(list: seq<Claim>)
    ensures Ask(list).0 == None <==>
              forall c, k :: c in list && PAI_OPER_TYPE_HUPAI <= k <= PAI_OPER_TYPE_COUNT ==> !HasCode(c, k)
    ensures Ask(list).0.Some? ==>
              && Ask(list).0.value in list
              && exists best :: PAI_OPER_TYPE_HUPAI <= best <= PAI_OPER_TYPE_COUNT && HasCode(Ask(list).0.value, best)
                                && forall c, k :: c in list && PAI_OPER_TYPE_HUPAI <= k && HasCode(c, k) ==> best <= k
  {
    hide Scan, Offers, HasCode, BestFrom;
    ScanFindsBest(list, PAI_OPER_TYPE_HUPAI);
    forall c: Claim, k: int ensures Offers(c, k) <==> HasCode(c, k) {
      OffersCode(c, k);
    }
    if Ask(list).0.Some? {
      var asked := Ask(list).0.value;
      var best := Best(asked);
      assert HasCode(asked, best);
      forall c, k | c in list && PAI_OPER_TYPE_HUPAI <= k && HasCode(c, k) ensures best <= k {
        assert Offers(c, k) && best <= Best(c);
      }
    } else {
      forall c, k | c in list && PAI_OPER_TYPE_HUPAI <= k <= PAI_OPER_TYPE_COUNT ensures !HasCode(c, k) {
        var i :| 0 <= i < |list| && list[i] == c;
        assert BestFrom(list[i], PAI_OPER_TYPE_HUPAI) > PAI_OPER_TYPE_COUNT;
        assert !Offers(list[i], k);
      }
    }
  }

  // ------------------------------------------------------------------------- asking all

  function Players(list: seq<Claim>): (r: seq<int>)
    ensures |r| == |list| && forall i :: 0 <= i < |r| ==> r[i] == list[i].playerId
  {
    seq(|list|, i requires 0 <= i < |list| => list[i].playerId)
  }

  /** Claims of different players, each with something to ask. */
  ghost predicate Orderly(list: seq<Claim>) {
    Distinct(Players(list)) && forall i :: 0 <= i < |list| ==> Askable(list[i])
  }

  /** The one asked is the best, and exactly his claim goes. */
  lemma AskOne(list: seq<Claim>) returns (j: nat)
    requires Orderly(list) && list != []
    ensures j < |list| && Ask(list) == (Some(list[j]), list[..j] + list[j + 1..]) && Earliest(list, j)
    ensures Orderly(list[..j] + list[j + 1..])
  {
    ScanFindsBest(list, PAI_OPER_TYPE_HUPAI);
    assert Askable(list[0]);
    hide Scan, FirstWith;
    j := Scan(list, PAI_OPER_TYPE_HUPAI).value;
    forall i | 0 <= i < j ensures list[i].playerId != list[j].playerId {
      assert Players(list)[i] != Players(list)[j];
    }
    EraseAt(list, j);
    WithoutOne(list, j);
  }

  lemma WithoutOne(list: seq<Claim>, j: nat)
    requires Orderly(list) && j < |list|
    ensures Orderly(list[..j] + list[j + 1..])
  {
    var rest := list[..j] + list[j + 1..];
    forall a, b | 0 <= a < b < |rest| ensures Players(rest)[a] != Players(rest)[b] {
      var a2, b2 := if a < j then a else a + 1, if b < j then b else b + 1;
      assert Players(list)[a2] != Players(list)[b2];
    }
  }

  /** No other claim comes before claim `j`: a smaller best code, or the same one and an earlier place. */
  ghost predicate Earliest(list: seq<Claim>, j: nat)
    requires j < |list|
  {
    && (forall i :: 0 <= i < |list| ==> Best(list[j]) <= Best(list[i]))
    && (forall i :: 0 <= i < j ==> Best(list[j]) < Best(list[i]))
  }

  /** Asking until nobody is left who could be asked: the sequence of those asked. */
  function Drain(list: seq<Claim>, calls: nat): seq<Claim>
    decreases calls
  {
    if calls == 0 || Ask(list).0.None? then [] else [Ask(list).0.value] + Drain(Ask(list).1, calls - 1)
  }

  /** The reference: claims in the order of their best code, earlier places first. */
  function StableSort(list: seq<Claim>): seq<Claim> {
    if list == [] then [] else Place(list[0], StableSort(list[1..]))
  }

  function Place(c: Claim, sorted: seq<Claim>): seq<Claim> {
    if sorted == [] || Best(c) <= Best(sorted[0]) then [c] + sorted
    else [sorted[0]] + Place(c, sorted[1..])
  }

  /** The earliest best claim leads the sorted list, and the rest sorts as the list without it. */
  lemma {:induction false} SortLeads(list: seq<Claim>, j: nat)
    requires j < |list| && Earliest(list, j)
    ensures StableSort(list) == [list[j]] + StableSort(list[..j] + list[j + 1..])
  {
    hide Best, Earliest, StableSort, Place;
    var c, tail := list[0], list[1..];
    assert [c] + tail == list;
    SortStep(c, tail);
    if j == 0 {
      assert list[..0] + list[1..] == tail;
      EarliestFirst(list);
    } else {
      EarliestInTail(list, j);
      SortLeads(tail, j - 1);
      var rest := tail[..j - 1] + tail[j..];
      assert list[..j] + list[j + 1..] == [c] + rest;
      SortStep(c, rest);
      PlaceAfter(c, list[j], StableSort(rest));
    }
  }

  lemma PlaceAfter(c: Claim, first: Claim, rest: seq<Claim>)
    requires Best(first) < Best(c)
    ensures Place(c, [first] + rest) == [first] + Place(c, rest)
  {
    assert ([first] + rest)[1..] == rest;
  }

  lemma EarliestFirst(list: seq<Claim>)
    requires list != [] && Earliest(list, 0)
    ensures Place(list[0], StableSort(list[1..])) == [list[0]] + StableSort(list[1..])
  {
    hide Best;
    if |list| > 1 {
      SortHead(list[1..]);
      var i :| 0 <= i < |list[1..]| && StableSort(list[1..])[0] == list[1..][i];
      assert list[1..][i] == list[i + 1];
    }
  }

  lemma SortStep(c: Claim, rest: seq<Claim>)
    ensures StableSort([c] + rest) == Place(c, StableSort(rest))
  {
    assert ([c] + rest)[1..] == rest;
  }

  lemma EarliestInTail(list: seq<Claim>, j: nat)
    requires 0 < j < |list| && Earliest(list, j)
    ensures Earliest(list[1..], j - 1) && Best(list[j]) < Best(list[0])
  {
    hide Best;
    var tail := list[1..];
    forall i | 0 <= i < |tail| ensures tail[i] == list[i + 1] {
    }
  }

  lemma {:induction false} SortHead(list: seq<Claim>)
    requires list != []
    ensures |StableSort(list)| == |list| && exists i :: 0 <= i < |list| && StableSort(list)[0] == list[i]
  {
    if |list| > 1 {
      SortHead(list[1..]);
      var i :| 0 <= i < |list[1..]| && StableSort(list[1..])[0] == list[1..][i];
      assert list[1..][i] == list[i + 1];
      PlaceSize(list[0], StableSort(list[1..]));
    } else {
      assert list[1..] == [];
    }
  }

  lemma {:induction false} PlaceSize(c: Claim, sorted: seq<Claim>)
    ensures |Place(c, sorted)| == |sorted| + 1
  {
    if sorted != [] {
      PlaceSize(c, sorted[1..]);
    }
  }

  /** Repeated calls ask the claimants once each, in the order of the stable sort by best code, and
      then the list is empty. */
  lemma {:induction false} DrainIsStableSort(list: seq<Claim>, calls: nat)
    requires Orderly(list) && calls >= |list|
    ensures Drain(list, calls) == StableSort(list)
    decreases calls
  {
    hide Ask, Drain, StableSort, Orderly, Earliest, Best, Scan;
    if list == [] {
      DrainNothing(calls);
    } else {
      var j := AskOne(list);
      DrainStep(list, calls);
      SortLeads(list, j);
      DrainIsStableSort(list[..j] + list[j + 1..], calls - 1);
    }
  }

  lemma DrainNothing(calls: nat)
    ensures Drain([], calls) == StableSort([])
  {
    ScanFindsBest([], PAI_OPER_TYPE_HUPAI);
  }

  lemma DrainStep(list: seq<Claim>, calls: nat)
    requires calls > 0 && Ask(list).0.Some?
    ensures Drain(list, calls) == [Ask(list).0.value] + Drain(Ask(list).1, calls - 1)
  {
    hide Ask;
  }

  /** The stable sort is in order, and holds the same claims. */
  lemma {:induction false} SortIsOrdered(list: seq<Claim>)
    ensures var s := StableSort(list);
            && (forall i, j :: 0 <= i < j < |s| ==> Best(s[i]) <= Best(s[j]))
            && multiset(s) == multiset(list)
  {
    if list != [] {
      SortIsOrdered(list[1..]);
      PlaceIsOrdered(list[0], StableSort(list[1..]));
      assert list == [list[0]] + list[1..];
    }
  }

  lemma {:induction false} PlaceIsOrdered(c: Claim, sorted: seq<Claim>)
    requires forall i, j :: 0 <= i < j < |sorted| ==> Best(sorted[i]) <= Best(sorted[j])
    ensures var s := Place(c, sorted);
            && (forall i, j :: 0 <= i < j < |s| ==> Best(s[i]) <= Best(s[j]))
            && multiset(s) == multiset(sorted) + multiset{c}
  {
    hide Best;
    if sorted == [] || Best(c) <= Best(sorted[0]) {
      assert Place(c, sorted) == [c] + sorted;
    } else {
      PlaceIsOrdered(c, sorted[1..]);
      assert sorted == [sorted[0]] + sorted[1..];
      var t := Place(c, sorted[1..]);
      forall x | x in t ensures Best(sorted[0]) <= Best(x) {
        assert x in multiset(t);
        assert x == c || x in sorted[1..];
      }
    }
  }

  // ------------------------------------------------------------------------ the pending list

  /** What a seat may do, 吃 struck out for all but the next seat (the first such entry only). */
  function Allowed(opers: seq<int>, next: bool): seq<int> {
    if next then opers else RemoveFirst(opers, PAI_OPER_TYPE_CHIPAI)
  }

  function ClaimOf(ids: seq<int>, seat: nat, pai: Card, source: int, opers: seq<int>): Claim
    requires seat < |ids|
  {
    Claim(ids[seat], source, [Alert(pai, opers)])
  }

  function NextSeat(curr: nat): nat {
    (curr + 1) % 4
  }

  function Seat(curr: nat, k: nat): (r: nat)
    ensures r < MAX_PLAYER_COUNT
  {
    (curr + 1 + k) % 4
  }

  /** The claim of one seat, if it has any. */
  function ClaimAt(ids: seq<int>, seat: nat, isNext: bool, pai: Card, source: int, rtn: seq<int>): (r: seq<Claim>)
    requires seat < |ids|
    ensures |r| <= 1
  {
    var opers := Allowed(rtn, isNext);
    if ids[seat] == source || opers == [] then [] else [ClaimOf(ids, seat, pai, source, opers)]
  }

  /** The claim of the seat `k` places after the next one. */
  function SeatClaim(ids: seq<int>, curr: nat, k: nat, pai: Card, source: int, rtn: seq<seq<int>>): (r: seq<Claim>)
    requires |rtn| == MAX_PLAYER_COUNT
    requires |ids| == MAX_PLAYER_COUNT
    ensures |r| <= 1
  {
    ClaimAt(ids, Seat(curr, k), k == 0, pai, source, rtn[Seat(curr, k)])
  }

  /** The three seats from the one after `_curr_player_index` on, the discarder left out. */
  function Pending(ids: seq<int>, curr: nat, pai: Card, source: int, rtn: seq<seq<int>>): seq<Claim>
    requires |rtn| == MAX_PLAYER_COUNT
    requires |ids| == MAX_PLAYER_COUNT
  {
    SeatClaim(ids, curr, 0, pai, source, rtn) + SeatClaim(ids, curr, 1, pai, source, rtn)
    + SeatClaim(ids, curr, 2, pai, source, rtn)
  }

  /** What the players' own tests return: known codes, each at most once. */
  ghost predicate Codes(rtn: seq<seq<int>>) {
    |rtn| == MAX_PLAYER_COUNT && forall seat :: 0 <= seat < |rtn| ==>
      Distinct(rtn[seat]) &&
      forall code <- rtn[seat] :: PAI_OPER_TYPE_HUPAI <= code <= PAI_OPER_TYPE_COUNT
  }

  lemma SeatsDiffer(curr: nat, seat: nat)
    ensures Seat(curr, 0) != Seat(curr, 1) && Seat(curr, 0) != Seat(curr, 2) && Seat(curr, 1) != Seat(curr, 2)
    ensures curr < MAX_PLAYER_COUNT ==> Seat(curr, 0) != curr && Seat(curr, 1) != curr && Seat(curr, 2) != curr
    ensures curr < MAX_PLAYER_COUNT && seat < MAX_PLAYER_COUNT ==>
                seat == curr || seat == Seat(curr, 0) || seat == Seat(curr, 1) || seat == Seat(curr, 2)
  {
  }

  lemma SeatNumbers(curr: nat)
    ensures Seat(curr, 0) == (curr + 1) % 4 && Seat(curr, 1) == (curr + 2) % 4 && Seat(curr, 2) == (curr + 3) % 4
  {
  }

  /** What every pending claim is: a seat among the three, not the discarder's, with something to do
      that its own test returned, and 吃 for the next seat only. */
  lemma SeatClaimIs(ids: seq<int>, curr: nat, k: nat, pai: Card, source: int, rtn: seq<seq<int>>)
    requires |ids| == MAX_PLAYER_COUNT && Codes(rtn) && k < 3
    ensures forall c <- SeatClaim(ids, curr, k, pai, source, rtn) ::
              && c.playerId == ids[Seat(curr, k)] != source && c.sourcePlayerId == source && Askable(c)
              && (forall code :: Offers(c, code) <==> code in rtn[Seat(curr, k)] && (code == PAI_OPER_TYPE_CHIPAI ==> k == 0))
              && |c.pais| == 1 && c.pais[0].pai == pai
              && multiset(c.pais[0].operList)
                 == multiset(rtn[Seat(curr, k)]) - (if k == 0 then multiset{} else multiset{PAI_OPER_TYPE_CHIPAI})
  {
    var seat := Seat(curr, k);
    var opers := Allowed(rtn[seat], k == 0);
    assert multiset(opers) == multiset(rtn[seat]) - (if k == 0 then multiset{} else multiset{PAI_OPER_TYPE_CHIPAI});
    AllowedIs(rtn[seat], k == 0);
    hide Allowed, Seat, Best, Offers;
    if ids[seat] != source && opers != [] {
      OneAlert(ids[seat], source, pai, opers);
    }
  }

  lemma OneAlert(player: int, source: int, pai: Card, opers: seq<int>)
    requires opers != [] && forall code <- opers :: PAI_OPER_TYPE_HUPAI <= code <= PAI_OPER_TYPE_COUNT
    ensures var c := Claim(player, source, [Alert(pai, opers)]); Askable(c) && forall code :: Offers(c, code) <==> code in opers
  {
    var c := Claim(player, source, [Alert(pai, opers)]);
    forall code ensures Offers(c, code) <==> code in opers {
      assert code in opers ==> code in c.pais[0].operList;
    }
    assert opers[0] in opers && Offers(c, opers[0]);
  }

  lemma AllowedIs(opers: seq<int>, next: bool)
    requires Distinct(opers)
    ensures forall code :: code in Allowed(opers, next) <==> code in opers && (code == PAI_OPER_TYPE_CHIPAI ==> next)
  {
    if !next && PAI_OPER_TYPE_CHIPAI in opers {
      var i := IndexOf(opers, PAI_OPER_TYPE_CHIPAI);
      forall code | code in opers && code != PAI_OPER_TYPE_CHIPAI ensures code in opers[..i] + opers[i + 1..] {
        var j :| 0 <= j < |opers| && opers[j] == code;
        assert j < i ==> opers[..i][j] == code;
        assert j > i ==> opers[i + 1..][j - i - 1] == code;
      }
    }
  }

  /** How many seats after the next one a player sits. */
  function Turn(ids: seq<int>, curr: nat, player: int): nat
    requires |ids| == MAX_PLAYER_COUNT
  {
    if player == ids[(curr + 1) % 4] then 0 else if player == ids[(curr + 2) % 4] then 1
    else if player == ids[(curr + 3) % 4] then 2 else 3
  }

  /** The pending list: different players in turn order, never the discarder, 吃 only for the next seat. */
  lemma PendingIs(ids: seq<int>, curr: nat, pai: Card, source: int, rtn: seq<seq<int>>)
    requires |ids| == MAX_PLAYER_COUNT && Distinct(ids) && Codes(rtn)
    ensures var list := Pending(ids, curr, pai, source, rtn);
            && Orderly(list) && |list| <= 3
            && (forall i, j :: 0 <= i < j < |list| ==> Turn(ids, curr, list[i].playerId) < Turn(ids, curr, list[j].playerId))
            && (forall c <- list :: c.playerId != source && c.sourcePlayerId == source
                                    && |c.pais| == 1 && c.pais[0].pai == pai
                                    && (PAI_OPER_TYPE_CHIPAI in c.pais[0].operList ==> c.playerId == ids[(curr + 1) % 4]))
  {
    assert |rtn| == MAX_PLAYER_COUNT;
    SeatNumbers(curr);
    hide SeatClaim, Seat, Codes, Best, Offers;
    SeatsDiffer(curr, curr);
    SeatClaimIs(ids, curr, 0, pai, source, rtn);
    SeatClaimIs(ids, curr, 1, pai, source, rtn);
    SeatClaimIs(ids, curr, 2, pai, source, rtn);
    var a, b, c := SeatClaim(ids, curr, 0, pai, source, rtn), SeatClaim(ids, curr, 1, pai, source, rtn), SeatClaim(ids, curr, 2, pai, source, rtn);
    JoinOrderly(a, b, ids[Seat(curr, 0)], ids[Seat(curr, 1)], ids[Seat(curr, 2)], c);
  }

  lemma JoinOrderly(a: seq<Claim>, b: seq<Claim>, p: int, q: int, r: int, c: seq<Claim>)
    requires |a| <= 1 && |b| <= 1 && |c| <= 1 && p != q && p != r && q != r
    requires (forall x <- a :: x.playerId == p && Askable(x)) && (forall x <- b :: x.playerId == q && Askable(x))
    requires forall x <- c :: x.playerId == r && Askable(x)
    ensures Orderly(a + b + c)
    ensures forall x <- a + b + c :: x.playerId == p || x.playerId == q || x.playerId == r
    ensures forall i, j :: 0 <= i < j < |a + b + c| ==>
              var x, y := (a + b + c)[i].playerId, (a + b + c)[j].playerId; x != y && x != r && y != p
  {
    hide Best;
    var s := a + b + c;
    assert |a| == 1 ==> a[0] in a;
    assert |b| == 1 ==> b[0] in b;
    assert |c| == 1 ==> c[0] in c;
  }

  /** Something to do: any code, 吃 only for the next seat. */
  ghost predicate MayAct(opers: seq<int>, isNext: bool) {
    exists code :: code in opers && (isNext || code != PAI_OPER_TYPE_CHIPAI)
  }

  lemma MayActIs(opers: seq<int>, isNext: bool)
    requires Distinct(opers)
    ensures Allowed(opers, isNext) != [] <==> MayAct(opers, isNext)
  {
    AllowedIs(opers, isNext);
    var a := Allowed(opers, isNext);
    hide Allowed;
    if a != [] {
      var code := a[0];
      assert code in a;
      assert code in opers && (isNext || code != PAI_OPER_TYPE_CHIPAI);
      assert MayAct(opers, isNext);
    } else {
      forall code | code in opers ensures code == PAI_OPER_TYPE_CHIPAI && !isNext {
        assert code !in a;
      }
      assert !MayAct(opers, isNext);
    }
  }

  /** Who is listed: with the discarder at the current seat, exactly the others with something to do. */
  lemma EveryClaimIsListed(ids: seq<int>, curr: nat, pai: Card, source: int, rtn: seq<seq<int>>, seat: nat)
    requires |ids| == MAX_PLAYER_COUNT && Distinct(ids) && Codes(rtn) && curr < MAX_PLAYER_COUNT && seat < MAX_PLAYER_COUNT
    ensures (exists c <- Pending(ids, curr, pai, source, rtn) :: c.playerId == ids[seat])
            <==> seat != curr && ids[seat] != source
                 && MayAct(rtn[seat], seat == (curr + 1) % 4)
  {
    SeatsDiffer(curr, seat);
    SeatNumbers(curr);
    forall k: nat | k < 3
      ensures (exists c <- SeatClaim(ids, curr, k, pai, source, rtn) :: c.playerId == ids[seat])
              <==> seat == Seat(curr, k) && ids[seat] != source
                   && MayAct(rtn[seat], seat == Seat(curr, 0))
    {
      SeatListed(ids, curr, k, pai, source, rtn, seat);
    }
    var a, b, c := SeatClaim(ids, curr, 0, pai, source, rtn), SeatClaim(ids, curr, 1, pai, source, rtn), SeatClaim(ids, curr, 2, pai, source, rtn);
    hide SeatClaim, Seat, Codes;
    forall x ensures x in a + b + c <==> x in a || x in b || x in c {
    }
  }

  /** What is listed for a seat: the tile, where it came from, and each code its test returned as often as
      it did, but for one 吃 of a seat that is not the next. */
  lemma ListedClaim(ids: seq<int>, curr: nat, pai: Card, source: int, rtn: seq<seq<int>>, seat: nat, c: Claim)
    requires |ids| == MAX_PLAYER_COUNT && Distinct(ids) && Codes(rtn) && curr < MAX_PLAYER_COUNT && seat < MAX_PLAYER_COUNT
    requires c in Pending(ids, curr, pai, source, rtn) && c.playerId == ids[seat]
    ensures seat != curr && ids[seat] != source && |c.pais| == 1
    ensures c == Claim(ids[seat], source, [Alert(pai, c.pais[0].operList)])
    ensures multiset(c.pais[0].operList)
            == multiset(rtn[seat]) - (if seat == (curr + 1) % 4 then multiset{} else multiset{PAI_OPER_TYPE_CHIPAI})
  {
    hide Offers, Best, SeatClaim, Seat;
    SeatsDiffer(curr, seat);
    SeatNumbers(curr);
    SeatClaimIs(ids, curr, 0, pai, source, rtn);
    SeatClaimIs(ids, curr, 1, pai, source, rtn);
    SeatClaimIs(ids, curr, 2, pai, source, rtn);
    assert c.pais == [c.pais[0]];
  }

  lemma ClaimListed(ids: seq<int>, here: nat, isNext: bool, pai: Card, source: int, rtn: seq<int>, player: int)
    requires here < |ids| && Distinct(rtn)
    ensures (exists c <- ClaimAt(ids, here, isNext, pai, source, rtn) :: c.playerId == player)
            <==> player == ids[here] != source && MayAct(rtn, isNext)
  {
    MayActIs(rtn, isNext);
    hide Allowed, MayAct, Distinct;
    var s := ClaimAt(ids, here, isNext, pai, source, rtn);
    assert s != [] ==> s[0] in s && s[0].playerId == ids[here];
  }

  lemma SeatListed(ids: seq<int>, curr: nat, k: nat, pai: Card, source: int, rtn: seq<seq<int>>, seat: nat)
    requires |ids| == MAX_PLAYER_COUNT && Distinct(ids) && Codes(rtn) && curr < MAX_PLAYER_COUNT && seat < MAX_PLAYER_COUNT && k < 3
    ensures (exists c <- SeatClaim(ids, curr, k, pai, source, rtn) :: c.playerId == ids[seat])
            <==> seat == Seat(curr, k) && ids[seat] != source && MayAct(rtn[seat], seat == Seat(curr, 0))
  {
    SeatsDiffer(curr, seat);
    var here := Seat(curr, k);
    assert k == 0 <==> here == Seat(curr, 0);
    assert Distinct(rtn[here]);
    hide Seat, MayAct, Codes, Distinct, ClaimAt;
    ClaimListed(ids, here, k == 0, pai, source, rtn[here], ids[seat]);
  }

  /** A discard is checked with its discarder at the current seat: then the list holds every other player
      with something to do, and nobody else. */
  lemma DiscardIsOffered(ids: seq<int>, curr: nat, pai: Card, rtn: seq<seq<int>>, seat: nat)
    requires |ids| == MAX_PLAYER_COUNT && Distinct(ids) && Codes(rtn) && curr < MAX_PLAYER_COUNT && seat < MAX_PLAYER_COUNT
    ensures (exists c <- Pending(ids, curr, pai, ids[curr], rtn) :: c.playerId == ids[seat])
            <==> seat != curr && MayAct(rtn[seat], seat == (curr + 1) % 4)
  {
    EveryClaimIsListed(ids, curr, pai, ids[curr], rtn, seat);
  }

  /** The caller has to see to that: with any other player at the current seat, this player would not be
      asked even when he could win. */
  lemma MissedClaim(ids: seq<int>, curr: nat, pai: Card, source: int, rtn: seq<seq<int>>)
    requires |ids| == MAX_PLAYER_COUNT && Distinct(ids) && Codes(rtn) && curr < MAX_PLAYER_COUNT && ids[curr] != source
    ensures forall c <- Pending(ids, curr, pai, source, rtn) :: c.playerId != ids[curr]
  {
    EveryClaimIsListed(ids, curr, pai, source, rtn, curr);
  }

  /** A discard settled: at most three players are asked, each once, best claims first and the earlier
      seat on ties; then nobody is pending. */
  lemma ClaimRound(ids: seq<int>, curr: nat, pai: Card, source: int, rtn: seq<seq<int>>)
    requires |ids| == MAX_PLAYER_COUNT && Distinct(ids) && Codes(rtn)
    ensures var list := Pending(ids, curr, pai, source, rtn); var asked := Drain(list, 3);
            && asked == StableSort(list) && |asked| == |list| <= 3 && multiset(asked) == multiset(list)
            && (forall i, j :: 0 <= i < j < |asked| ==> Best(asked[i]) <= Best(asked[j]))
            && Drain(list, 4) == asked
  {
    var list := Pending(ids, curr, pai, source, rtn);
    PendingIs(ids, curr, pai, source, rtn);
    hide Pending, Best, Orderly, Drain, StableSort;
    DrainIsStableSort(list, 3);
    DrainIsStableSort(list, 4);
    SortIsOrdered(list);
    var asked := StableSort(list);
    assert Drain(list, 3) == asked;
    assert multiset(asked) == multiset(list);
    assert |asked| == |multiset(asked)| && |list| == |multiset(list)|;
  }

  // ------------------------------------------------------------------- robbing a kong

  /** Where the code of 抢杠 stands among the others is not part of this model. */
  predicate IsCode(code: int) {
    PAI_OPER_TYPE_HUPAI <= code <= PAI_OPER_TYPE_COUNT
  }

  /** The claim of one seat on a kong laid down by `owner`. */
  function RobberAt(ids: seq<int>, seat: nat, pai: Card, owner: int, wins: bool, code: int): (r: seq<Claim>)
    requires seat < |ids|
    ensures |r| <= 1
  {
    if !wins || ids[seat] == owner then [] else [ClaimOf(ids, seat, pai, owner, [code])]
  }

  function SeatRobber(ids: seq<int>, curr: nat, k: nat, pai: Card, owner: int, wins: seq<bool>, code: int): (r: seq<Claim>)
    requires |ids| == MAX_PLAYER_COUNT && |wins| == MAX_PLAYER_COUNT
    ensures |r| <= 1
  {
    RobberAt(ids, Seat(curr, k), pai, owner, wins[Seat(curr, k)], code)
  }

  /** What `CheckQiangGang` appends: every player of the three seats after the current one who wins on the tile. */
  function Robbers(ids: seq<int>, curr: nat, pai: Card, owner: int, wins: seq<bool>, code: int): seq<Claim>
    requires |ids| == MAX_PLAYER_COUNT && |wins| == MAX_PLAYER_COUNT
  {
    SeatRobber(ids, curr, 0, pai, owner, wins, code) + SeatRobber(ids, curr, 1, pai, owner, wins, code)
    + SeatRobber(ids, curr, 2, pai, owner, wins, code)
  }

  /** A claim to rob the kong `pai` of `owner`. */
  predicate Robs(c: Claim, pai: Card, owner: int, code: int) {
    c.sourcePlayerId == owner && c.pais == [Alert(pai, [code])]
  }

  lemma RobsAsks(c: Claim, pai: Card, owner: int, code: int)
    requires Robs(c, pai, owner, code) && IsCode(code)
    ensures Askable(c) && forall k :: Offers(c, k) <==> k == code
  {
    forall k ensures Offers(c, k) <==> k == code {
      if k == code {
        assert k in c.pais[0].operList;
      }
    }
    hide Offers;
    assert Offers(c, code);
  }

  lemma SeatRobberIs(ids: seq<int>, curr: nat, k: nat, pai: Card, wins: seq<bool>, code: int, seat: nat)
    requires |ids| == MAX_PLAYER_COUNT && |wins| == MAX_PLAYER_COUNT && Distinct(ids) && IsCode(code)
    requires curr < MAX_PLAYER_COUNT && seat < MAX_PLAYER_COUNT && k < 3
    ensures forall c <- SeatRobber(ids, curr, k, pai, ids[curr], wins, code) ::
              c.playerId == ids[Seat(curr, k)] && Robs(c, pai, ids[curr], code) && Askable(c)
    ensures (exists c <- SeatRobber(ids, curr, k, pai, ids[curr], wins, code) :: c.playerId == ids[seat])
            <==> seat == Seat(curr, k) && wins[seat]
  {
    SeatsDiffer(curr, seat);
    var s, here := SeatRobber(ids, curr, k, pai, ids[curr], wins, code), Seat(curr, k);
    assert here != curr;
    hide Seat, Best, Offers;
    assert s == if wins[here] then [ClaimOf(ids, here, pai, ids[curr], [code])] else [];
    if s != [] {
      RobsAsks(s[0], pai, ids[curr], code);
      assert s[0] in s;
    }
  }

  /** The kong's owner at the current seat: the robbers are exactly the others who win on the tile, each once, in turn order. */
  lemma RobbersAre(ids: seq<int>, curr: nat, pai: Card, wins: seq<bool>, code: int, seat: nat)
    requires |ids| == MAX_PLAYER_COUNT && |wins| == MAX_PLAYER_COUNT && Distinct(ids) && IsCode(code)
    requires curr < MAX_PLAYER_COUNT && seat < MAX_PLAYER_COUNT
    ensures var list := Robbers(ids, curr, pai, ids[curr], wins, code);
            && Orderly(list) && (forall c <- list :: Robs(c, pai, ids[curr], code))
            && (forall i, j :: 0 <= i < j < |list| ==> Turn(ids, curr, list[i].playerId) < Turn(ids, curr, list[j].playerId))
            && ((exists c <- list :: c.playerId == ids[seat]) <==> seat != curr && wins[seat])
  {
    hide Seat, Best, Offers, SeatRobber, Robs;
    SeatsDiffer(curr, seat);
    SeatNumbers(curr);
    SeatRobberIs(ids, curr, 0, pai, wins, code, seat);
    SeatRobberIs(ids, curr, 1, pai, wins, code, seat);
    SeatRobberIs(ids, curr, 2, pai, wins, code, seat);
    var a, b, c := SeatRobber(ids, curr, 0, pai, ids[curr], wins, code), SeatRobber(ids, curr, 1, pai, ids[curr], wins, code),
                   SeatRobber(ids, curr, 2, pai, ids[curr], wins, code);
    JoinOrderly(a, b, ids[Seat(curr, 0)], ids[Seat(curr, 1)], ids[Seat(curr, 2)], c);
    forall x ensures x in a + b + c <==> x in a || x in b || x in c {
    }
  }

  // ------------------------------------------------------------ claims that are left over

  /** The claims still pending, and the one that is being asked. */
  datatype Desk = Desk(list: seq<Claim>, cache: Option<Claim>)

  /** A player passes; `own` is what the player who draws next may do himself. */
  datatype Answer = Recorded(pai: Card, owner: int) | Asked(claim: Claim) | Nobody

  /** `IsQiangGang`: this player is being asked whether to rob a kong. */
  predicate IsQiangGang(cache: Option<Claim>, player: int, code: int) {
    cache.Some? && cache.value.playerId == player && cache.value.sourcePlayerId != 0 && Offers(cache.value, code)
  }

  /** GIVEUP: of a robber, the kong is recorded for the owner; of anybody else, the next claim is asked. */
  function GiveUp(d: Desk, player: int, own: Option<Claim>, code: int): (Desk, Answer) {
    if IsQiangGang(d.cache, player, code) then
      (Desk(d.list, own), Recorded(d.cache.value.pais[0].pai, d.cache.value.sourcePlayerId))
    else
      match Ask(d.list).0
      case Some(c) => (Desk(Ask(d.list).1, Some(c)), Asked(c))
      case None => (Desk(d.list, own), Nobody)
  }

  /** What a pass does. A player asked about a kong of somebody has it recorded for that owner, with its own
      tile, and the list stays; else one more claim is asked and goes off the list, or nobody is left; the
      player who draws is then the one waited for. */
  lemma PassMeans(d: Desk, player: int, own: Option<Claim>, code: int)
    ensures var (next, answer) := GiveUp(d, player, own, code);
            if d.cache.Some? && d.cache.value.playerId == player && d.cache.value.sourcePlayerId != 0
               && HasCode(d.cache.value, code) then
              && next == Desk(d.list, own) && |d.cache.value.pais| > 0
              && answer == Recorded(d.cache.value.pais[0].pai, d.cache.value.sourcePlayerId)
            else if exists c, k :: c in d.list && PAI_OPER_TYPE_HUPAI <= k <= PAI_OPER_TYPE_COUNT && HasCode(c, k) then
              answer.Asked? && answer.claim in d.list && next.cache == Some(answer.claim) && |next.list| == |d.list| - 1
            else
              answer == Nobody && next == Desk(d.list, own)
  {
    hide Ask, HasCode;
    AskedOffers(d.list);
    AskTakesOne(d.list);
    if d.cache.Some? {
      OffersCode(d.cache.value, code);
    }
  }

  lemma AskTakesOne(list: seq<Claim>)
    ensures Ask(list).0.Some? ==> |Ask(list).1| == |list| - 1
    ensures Ask(list).0.None? ==> Ask(list).1 == list
  {
    hide Scan, BestFrom;
    ScanFindsBest(list, PAI_OPER_TYPE_HUPAI);
    if Ask(list).0.Some? {
      EraseSize(list, Scan(list, PAI_OPER_TYPE_HUPAI).value);
    }
  }

  lemma {:induction false} EraseSize(list: seq<Claim>, j: nat)
    requires j < |list|
    ensures |Erase(list, list[j].playerId)| == |list| - 1
  {
    if list[0].playerId != list[j].playerId {
      EraseSize(list[1..], j - 1);
    }
  }

  /** Between two discards: a claim is carried out, or another operation of the current player, which leave
      the list alone; or a player passes. */
  datatype Event = Act(own: Option<Claim>) | Pass(player: int, own: Option<Claim>)

  function Apply(d: Desk, e: Event, code: int): Desk {
    match e
    case Act(own) => Desk(d.list, own)
    case Pass(player, own) => GiveUp(d, player, own, code).0
  }

  /** The claims asked along a run, in order. */
  function AskedBy(d: Desk, events: seq<Event>, code: int): seq<Claim>
    decreases |events|
  {
    if events == [] then [] else AskedOn(d, events[0], code) + AskedBy(Apply(d, events[0], code), events[1..], code)
  }

  function Run(d: Desk, events: seq<Event>, code: int): Desk
    decreases |events|
  {
    if events == [] then d else Run(Apply(d, events[0], code), events[1..], code)
  }

  /** The passes of a run that are not a robber's. */
  function Passes(d: Desk, events: seq<Event>, code: int): nat
    decreases |events|
  {
    if events == [] then 0
    else (if events[0].Pass? && !IsQiangGang(d.cache, events[0].player, code) then 1 else 0)
         + Passes(Apply(d, events[0], code), events[1..], code)
  }

  function Min(a: nat, b: nat): nat {
    if a < b then a else b
  }

  /** One question: the first of the sorted claims is asked, and the others stay. */
  lemma AskSorted(list: seq<Claim>)
    requires Orderly(list)
    ensures if list == [] then Ask(list) == (None, list)
            else && StableSort(list) == [StableSort(list)[0]] + StableSort(Ask(list).1) && Ask(list).0 == Some(StableSort(list)[0])
                 && Orderly(Ask(list).1) && |Ask(list).1| == |list| - 1
  {
    hide Scan, StableSort, Orderly, Earliest, Best;
    if list == [] {
      ScanFindsBest([], PAI_OPER_TYPE_HUPAI);
    } else {
      var j := AskOne(list);
      SortLeads(list, j);
    }
  }

  /** The claim an event has asked, if any. */
  function AskedOn(d: Desk, e: Event, code: int): seq<Claim> {
    match e
    case Act(_) => []
    case Pass(player, own) =>
      match GiveUp(d, player, own, code).1
      case Asked(c) => [c]
      case _ => []
  }

  lemma EventStep(d: Desk, e: Event, code: int)
    requires Orderly(d.list)
    ensures var asks := e.Pass? && !IsQiangGang(d.cache, e.player, code) && d.list != [];
            var rest := Apply(d, e, code).list;
            && Orderly(rest) && AskedOn(d, e, code) + StableSort(rest) == StableSort(d.list)
            && |AskedOn(d, e, code)| == (if asks then 1 else 0) && |rest| + |AskedOn(d, e, code)| == |d.list|
  {
    AskSorted(d.list);
    hide Ask, StableSort, Orderly, IsQiangGang;
    assert [] + StableSort(d.list) == StableSort(d.list);
  }

  /** Until the next discard is checked, the claims are asked in the order of the stable sort, one a pass,
      whatever claims are carried out in between: none of those left is taken off the list. */
  lemma {:induction false} AskedAnyway(d: Desk, events: seq<Event>, code: int)
    requires Orderly(d.list)
    ensures var n := Min(Passes(d, events, code), |d.list|);
            && |StableSort(d.list)| == |d.list|
            && AskedBy(d, events, code) == StableSort(d.list)[..n]
            && StableSort(Run(d, events, code).list) == StableSort(d.list)[n..]
            && Orderly(Run(d, events, code).list) && |Run(d, events, code).list| == |d.list| - n
    decreases |events|
  {
    hide StableSort, Orderly, IsQiangGang, Apply, AskedOn;
    SortSize(d.list);
    if events != [] {
      var next, first := Apply(d, events[0], code), AskedOn(d, events[0], code);
      EventStep(d, events[0], code);
      AskedAnyway(next, events[1..], code);
      var m := Min(Passes(next, events[1..], code), |next.list|);
      assert (first + StableSort(next.list))[..|first| + m] == first + StableSort(next.list)[..m];
      assert (first + StableSort(next.list))[|first| + m..] == StableSort(next.list)[m..];
    }
  }

  lemma SortSize(list: seq<Claim>)
    ensures |StableSort(list)| == |list|
  {
    if list != [] {
      SortHead(list);
    }
  }

  /** A claim carried out, then a pass: after `k` claims were asked the next one is asked about a tile that is
      gone exactly when there is one, that is when the claim carried out was not the last of the sort. */
  lemma LeftoverIsAsked(d: Desk, before: seq<Event>, own: Option<Claim>, player: int, next: Option<Claim>, code: int)
    requires Orderly(d.list) && !IsQiangGang(own, player, code)
    ensures var k := Min(Passes(d, before, code), |d.list|);
            var after := Apply(Run(d, before, code), Act(own), code);
            && |StableSort(d.list)| == |d.list|
            && GiveUp(after, player, next, code).1 == if k < |d.list| then Asked(StableSort(d.list)[k]) else Nobody
  {
    AskedAnyway(d, before, code);
    AskSorted(Run(d, before, code).list);
    hide Ask, StableSort, Orderly, IsQiangGang;
  }

  /** `SendCheckRtn` erases the first claim of the player it asks: the one asked exactly when he has none before it. */
  lemma ErasesAsked(list: seq<Claim>, j: nat)
    requires Scan(list, PAI_OPER_TYPE_HUPAI) == Some(j) && j < |list|
    ensures Ask(list).0 == Some(list[j])
    ensures Ask(list).1 == list[..j] + list[j + 1..] <==> forall i :: 0 <= i < j ==> list[i].playerId != list[j].playerId
  {
    ScanFindsBest(list, PAI_OPER_TYPE_HUPAI);
    hide Scan, BestFrom;
    if i :| 0 <= i < j && list[i].playerId == list[j].playerId {
      var f := FirstOf(list, list[j].playerId, i);
      EraseFirst(list, f, list[j].playerId);
      var left, right := list[..f] + list[f + 1..], list[..j] + list[j + 1..];
      if left == right {
        ShiftedIsSame(list, f, j);
      }
    } else {
      EraseAt(list, j);
    }
  }

  lemma {:induction false} FirstOf(list: seq<Claim>, player: int, i: nat) returns (f: nat)
    requires i < |list| && list[i].playerId == player
    ensures f <= i && list[f].playerId == player && forall k :: 0 <= k < f ==> list[k].playerId != player
    decreases i
  {
    if k :| 0 <= k < i && list[k].playerId == player {
      f := FirstOf(list, player, k);
    } else {
      f := i;
    }
  }

  lemma EraseFirst(list: seq<Claim>, f: nat, player: int)
    requires f < |list| && list[f].playerId == player && forall k :: 0 <= k < f ==> list[k].playerId != player
    ensures Erase(list, player) == list[..f] + list[f + 1..]
  {
    EraseAt(list, f);
  }

  lemma {:induction false} ShiftedIsSame(list: seq<Claim>, f: nat, j: nat)
    requires f <= j < |list| && list[..f] + list[f + 1..] == list[..j] + list[j + 1..]
    ensures list[f] == list[j]
    decreases j - f
  {
    if f < j {
      var left, right := list[..f] + list[f + 1..], list[..j] + list[j + 1..];
      assert left[f] == list[f + 1] && right[f] == list[f];
      forall k | 0 <= k < |list| - 1
        ensures (list[..f + 1] + list[f + 2..])[k] == right[k] {
        assert left[k] == right[k];
      }
      assert list[..f + 1] + list[f + 2..] == right;
      ShiftedIsSame(list, f + 1, j);
    }
  }

  // ---------------------------------------------------------- a kong recorded again and again

  /** Everybody asked passes, and the others pass on what they might do themselves: the kongs recorded by
      the next `n` passes. */
  function Recordings(d: Desk, n: nat, code: int): seq<(Card, int)>
    decreases n
  {
    if n == 0 then []
    else
      var player := if d.cache.Some? then d.cache.value.playerId else 0;
      var (next, answer) := GiveUp(d, player, None, code);
      (if answer.Recorded? then [(answer.pai, answer.owner)] else []) + Recordings(next, n - 1, code)
  }

  /** What the claims to rob in a list would record. */
  function Robberies(list: seq<Claim>, code: int): seq<(Card, int)> {
    if list == [] then []
    else (if IsQiangGang(Some(list[0]), list[0].playerId, code) then [(list[0].pais[0].pai, list[0].sourcePlayerId)] else [])
         + Robberies(list[1..], code)
  }

  /** Passes until all are through: one for each claim, and one more for each claim to rob. */
  function Rounds(list: seq<Claim>, code: int): nat {
    |list| + |Robberies(list, code)|
  }

  /** When all pass, a kong is recorded once for every claim to rob it. */
  lemma {:induction false} RecordedPerRobber(list: seq<Claim>, code: int)
    requires Orderly(list)
    ensures Recordings(Desk(list, None), Rounds(StableSort(list), code), code) == Robberies(StableSort(list), code)
    decreases |list|
  {
    hide Ask, StableSort, Orderly, Recordings;
    AskSorted(list);
    if list == [] {
      SortSize(list);
      NothingRecorded(Desk(list, None), code);
    } else {
      var sorted, rest := StableSort(list), Ask(list).1;
      var c := sorted[0];
      RecordedPerRobber(rest, code);
      assert sorted == [c] + StableSort(rest) && sorted[1..] == StableSort(rest);
      AskedThenPassed(list, rest, c, |StableSort(rest)| + |Robberies(StableSort(rest), code)|, code);
    }
  }

  lemma NothingRecorded(d: Desk, code: int)
    ensures Recordings(d, 0, code) == []
  {
  }

  /** The first claim: asked, and when it is one to rob, recorded at the next pass. */
  lemma AskedThenPassed(list: seq<Claim>, rest: seq<Claim>, c: Claim, n: nat, code: int)
    requires Ask(list) == (Some(c), rest)
    ensures if IsQiangGang(Some(c), c.playerId, code)
            then Recordings(Desk(list, None), n + 2, code)
                 == [(c.pais[0].pai, c.sourcePlayerId)] + Recordings(Desk(rest, None), n, code)
            else Recordings(Desk(list, None), n + 1, code) == Recordings(Desk(rest, None), n, code)
  {
    hide Ask, Offers;
    var asked := Desk(rest, Some(c));
    assert GiveUp(Desk(list, None), 0, None, code) == (asked, Asked(c));
    assert Recordings(Desk(list, None), n + 1, code) == [] + Recordings(asked, n, code);
    if IsQiangGang(Some(c), c.playerId, code) {
      assert Recordings(Desk(list, None), n + 2, code) == [] + Recordings(asked, n + 1, code);
    } else {
      PassedOver(rest, c, n, code);
    }
  }

  /** A claim that does not rob, once passed, leaves no trace. */
  lemma PassedOver(list: seq<Claim>, c: Claim, n: nat, code: int)
    requires !IsQiangGang(Some(c), c.playerId, code)
    ensures Recordings(Desk(list, Some(c)), n, code) == Recordings(Desk(list, None), n, code)
  {
    hide Ask;
  }

  /** How often depends on the list only, not on the order of asking. */
  lemma {:induction false} SortKeepsRobberies(list: seq<Claim>, code: int)
    ensures |Robberies(StableSort(list), code)| == |Robberies(list, code)|
  {
    if list != [] {
      SortKeepsRobberies(list[1..], code);
      PlaceRobbery(list[0], StableSort(list[1..]), code);
    }
  }

  lemma {:induction false} PlaceRobbery(c: Claim, sorted: seq<Claim>, code: int)
    ensures |Robberies(Place(c, sorted), code)|
         == |Robberies(sorted, code)| + if IsQiangGang(Some(c), c.playerId, code) then 1 else 0
  {
    hide Best, IsQiangGang;
    if sorted == [] || Best(c) <= Best(sorted[0]) {
      assert ([c] + sorted)[1..] == sorted;
    } else {
      PlaceRobbery(c, sorted[1..], code);
      assert Place(c, sorted)[1..] == Place(c, sorted[1..]);
    }
  }

  /** A player whose 吃 was passed over by another's kong, and who may rob that kong: when 抢杠 comes before 吃,
      his question is asked, his 吃 is erased, and the question stays. */
  lemma QuestionStays(player: int, feeder: int, owner: int, pai: Card, kong: Card, code: int)
    requires PAI_OPER_TYPE_HUPAI <= code < PAI_OPER_TYPE_CHIPAI
    ensures var eat, rob := Claim(player, feeder, [Alert(pai, [PAI_OPER_TYPE_CHIPAI])]), Claim(player, owner, [Alert(kong, [code])]);
            Ask([eat, rob]) == (Some(rob), [rob])
  {
    var eat, rob := Claim(player, feeder, [Alert(pai, [PAI_OPER_TYPE_CHIPAI])]), Claim(player, owner, [Alert(kong, [code])]);
    forall k ensures (Offers(eat, k) <==> k == PAI_OPER_TYPE_CHIPAI) && (Offers(rob, k) <==> k == code) {
      assert k == PAI_OPER_TYPE_CHIPAI ==> k in eat.pais[0].operList;
      assert k == code ==> k in rob.pais[0].operList;
    }
    hide Offers;
    ScanFindsBest([eat, rob], PAI_OPER_TYPE_HUPAI);
    assert Offers(eat, PAI_OPER_TYPE_CHIPAI) && Offers(rob, code);
    assert Best(rob) == code && Best(eat) == PAI_OPER_TYPE_CHIPAI;
    var list := [eat, rob];
    hide Scan, BestFrom;
    assert list[0] == eat && list[1] == rob && list[1..] == [rob];
    assert Scan(list, PAI_OPER_TYPE_HUPAI) == Some(1);
  }

  /** A claim to rob this kong, or none to rob any. */
  predicate RobsOrNot(c: Claim, pai: Card, owner: int, code: int) {
    Robs(c, pai, owner, code) || !Offers(c, code)
  }

  lemma {:induction false} RobberiesAre(list: seq<Claim>, pai: Card, owner: int, code: int)
    requires IsCode(code) && forall c <- list :: RobsOrNot(c, pai, owner, code)
    ensures forall i :: 0 <= i < |Robberies(list, code)| ==> Robberies(list, code)[i] == (pai, owner)
  {
    if list != [] {
      assert list[0] in list;
      hide Offers;
      RobberiesAre(list[1..], pai, owner, code);
    }
  }

  /** Claims left over, and the robbers behind them. */
  lemma {:induction false} RobberiesOf(left: seq<Claim>, robbers: seq<Claim>, pai: Card, owner: int, code: int)
    requires owner != 0 && IsCode(code) && (forall c <- left :: !Offers(c, code)) && forall c <- robbers :: Robs(c, pai, owner, code)
    ensures |Robberies(left + robbers, code)| == |robbers|
  {
    hide Offers;
    if left != [] {
      assert left[0] in left && (left + robbers)[1..] == left[1..] + robbers;
      RobberiesOf(left[1..], robbers, pai, owner, code);
    } else if robbers != [] {
      assert robbers[0] in robbers && left + robbers == robbers;
      RobsAsks(robbers[0], pai, owner, code);
      assert [] + robbers[1..] == robbers[1..];
      RobberiesOf([], robbers[1..], pai, owner, code);
    }
  }

  // ------------------------------------------------------------------------------ the game

  class Game {
    var players: seq<int>
    var currPlayerIndex: nat
    var operList: seq<Claim>
    var operCache: Option<Claim>

    constructor (ids: seq<int>)
      requires |ids| == MAX_PLAYER_COUNT
      ensures players == ids && operList == [] && operCache == None && currPlayerIndex == 0
    {
      players, currPlayerIndex, operList, operCache := ids, 0, [], None;
    }

    /** `rtn` is what `Player::CheckPai` returns for each seat. */
    method CheckPai(pai: Card, source: int, rtn: seq<seq<int>>) returns (any: bool)
      requires |rtn| == MAX_PLAYER_COUNT
      requires |players| == MAX_PLAYER_COUNT && currPlayerIndex < MAX_PLAYER_COUNT
      modifies this`operList
      ensures operList == if source in players then Pending(players, currPlayerIndex, pai, source, rtn) else []
      ensures any == (operList != [])
    {
      operList := [];
      if source !in players {
        return false;
      }
      CheckSeats(pai, source, rtn);
      any := |operList| > 0;
    }

    method CheckSeats(pai: Card, source: int, rtn: seq<seq<int>>)
      requires |rtn| == MAX_PLAYER_COUNT
      requires |players| == MAX_PLAYER_COUNT && currPlayerIndex < MAX_PLAYER_COUNT && operList == []
      modifies this`operList
      ensures operList == Pending(players, currPlayerIndex, pai, source, rtn)
    {
      var next := NextSeat(currPlayerIndex);
      hide NextSeat, SeatClaim, ClaimAt, Seat, PendingUpTo, Pending, Allowed;
      PendingStart(players, currPlayerIndex, pai, source, rtn);
      var i := next;
      ghost var k: nat := 0;
      while i < next + 3
        invariant i == next + k && k <= 3
        invariant operList == PendingUpTo(players, currPlayerIndex, k, pai, source, rtn)
      {
        PendingStep(players, currPlayerIndex, k, pai, source, rtn);
        CheckSeat(next, i, k, pai, source, rtn);
        i, k := i + 1, k + 1;
      }
      PendingWhole(players, currPlayerIndex, pai, source, rtn);
    }

    /** One turn of that loop. */
    method CheckSeat(next: nat, i: nat, ghost k: nat, pai: Card, source: int, rtn: seq<seq<int>>)
      requires |rtn| == MAX_PLAYER_COUNT
      requires |players| == MAX_PLAYER_COUNT && currPlayerIndex < MAX_PLAYER_COUNT && next == NextSeat(currPlayerIndex) && i == next + k && k < 3
      modifies this`operList
      ensures operList == old(operList)
                          + ClaimAt(players, Seat(currPlayerIndex, k), k == 0, pai, source, rtn[Seat(currPlayerIndex, k)])
    {
      hide NextSeat, Seat, ClaimAt;
      SeatFrom(currPlayerIndex, next, i);
      var seat := i % 4;
      Consider(seat, seat == next, pai, source, rtn[seat]);
    }

    method Consider(seat: nat, isNext: bool, pai: Card, source: int, rtn: seq<int>)
      requires seat < |players|
      modifies this`operList
      ensures operList == old(operList) + ClaimAt(players, seat, isNext, pai, source, rtn)
    {
      if source != players[seat] {
        var check := rtn;
        if PAI_OPER_TYPE_CHIPAI in check && !isNext {
          check := RemoveFirst(check, PAI_OPER_TYPE_CHIPAI);
        }
        if check != [] {
          operList := operList + [Claim(players[seat], source, [Alert(pai, check)])];
        }
      }
    }

    /** The players who win on the tile of a kong are appended to the list, which is not cleared. */
    method CheckQiangGang(pai: Card, owner: int, wins: seq<bool>, code: int) returns (any: bool)
      requires |players| == MAX_PLAYER_COUNT && |wins| == MAX_PLAYER_COUNT && currPlayerIndex < MAX_PLAYER_COUNT
      modifies this`operList
      ensures operList == old(operList) + Robbers(players, currPlayerIndex, pai, owner, wins, code)
      ensures any == (Robbers(players, currPlayerIndex, pai, owner, wins, code) != [])
    {
      hide NextSeat, SeatRobber, RobberAt, Seat, RobbersUpTo, Robbers;
      var next := NextSeat(currPlayerIndex);
      RobbersStart(players, currPlayerIndex, pai, owner, wins, code);
      any := false;
      var i := next;
      ghost var k: nat := 0;
      assert operList + [] == operList;
      while i < next + 3
        invariant i == next + k && k <= 3
        invariant operList == old(operList) + RobbersUpTo(players, currPlayerIndex, k, pai, owner, wins, code)
        invariant any == (RobbersUpTo(players, currPlayerIndex, k, pai, owner, wins, code) != [])
      {
        RobbersStep(players, currPlayerIndex, k, pai, owner, wins, code);
        SeatFrom(currPlayerIndex, next, i);
        var seat := i % 4;
        var robs := ConsiderRobber(seat, pai, owner, wins[seat], code);
        any := any || robs;
        i, k := i + 1, k + 1;
      }
      RobbersWhole(players, currPlayerIndex, pai, owner, wins, code);
    }

    method ConsiderRobber(seat: nat, pai: Card, owner: int, wins: bool, code: int) returns (robs: bool)
      requires seat < |players|
      modifies this`operList
      ensures operList == old(operList) + RobberAt(players, seat, pai, owner, wins, code)
      ensures robs == (RobberAt(players, seat, pai, owner, wins, code) != [])
    {
      if !wins || players[seat] == owner {
        return false;
      }
      operList := operList + [Claim(players[seat], owner, [Alert(pai, [code])])];
      return true;
    }

    ghost function State(): Desk
      reads this
    {
      Desk(operList, operCache)
    }

    /** GIVEUP, up to the draw; `own` is what the player who draws may do. */
    method OnGiveUp(player: int, own: Option<Claim>, code: int) returns (answer: Answer)
      modifies this`operList, this`operCache
      ensures (State(), answer) == GiveUp(old(State()), player, own, code)
    {
      hide Ask, Offers;
      var robbing := CheckRobbing(player, code);
      if robbing {
        answer := Recorded(operCache.value.pais[0].pai, operCache.value.sourcePlayerId);
        operCache := own;
        return;
      }
      var asked := SendCheckRtn();
      if asked.Some? {
        return Asked(asked.value);
      }
      AskNobody(old(operList));
      operCache := own;
      return Nobody;
    }

    /** The scan of `IsQiangGang`. */
    method CheckRobbing(player: int, code: int) returns (robbing: bool)
      ensures robbing == IsQiangGang(operCache, player, code)
      ensures robbing ==> operCache.value.pais != []
    {
      if operCache.None? || operCache.value.playerId != player || operCache.value.sourcePlayerId == 0 {
        return false;
      }
      var pais := operCache.value.pais;
      for p := 0 to |pais|
        invariant forall q :: 0 <= q < p ==> code !in pais[q].operList
      {
        if code in pais[p].operList {
          return true;
        }
      }
      return false;
    }

    /** Asks one claimant; `None` when there is nobody to ask. */
    method SendCheckRtn() returns (asked: Option<Claim>)
      modifies this`operList, this`operCache
      ensures (asked, operList) == Ask(old(operList))
      ensures operCache == asked
    {
      operCache := None;
      ScanFindsBest(operList, PAI_OPER_TYPE_HUPAI);
      var code := PAI_OPER_TYPE_HUPAI;
      while code <= PAI_OPER_TYPE_COUNT
        invariant PAI_OPER_TYPE_HUPAI <= code <= PAI_OPER_TYPE_COUNT + 1
        invariant operList == old(operList) && operCache == None
        invariant Scan(operList, PAI_OPER_TYPE_HUPAI) == Scan(operList, code)
      {
        var found := FindOper(code);
        if found.Some? {
          var player := operList[found.value].playerId;
          operCache := Some(operList[found.value]);
          ErasePlayer(player);
          return operCache;
        }
        code := code + 1;
      }
      return None;
    }

    method FindOper(code: int) returns (found: Option<nat>)
      ensures found == FirstWith(operList, code)
    {
      var i: nat := 0;
      while i < |operList|
        invariant i <= |operList|
        invariant FirstWith(operList, code) == match FirstWith(operList[i..], code)
                                               case None => None case Some(j) => Some(i + j)
      {
        var offers := false;
        var pais := operList[i].pais;
        for p := 0 to |pais|
          invariant offers == exists q :: 0 <= q < p && code in pais[q].operList
        {
          if code in pais[p].operList {
            offers := true;
          }
        }
        assert offers == Offers(operList[i], code);
        if offers {
          return Some(i);
        }
        assert operList[i..][1..] == operList[i + 1..];
        i := i + 1;
      }
      return None;
    }

    method ErasePlayer(player: int)
      modifies this`operList
      ensures operList == Erase(old(operList), player)
    {
      var i: nat := 0;
      while i < |operList| && operList[i].playerId != player
        invariant i <= |operList| && forall j :: 0 <= j < i ==> operList[j].playerId != player
      {
        i := i + 1;
      }
      if i < |operList| {
        EraseAt(operList, i);
        operList := operList[..i] + operList[i + 1..];
      } else {
        EraseNone(operList, player);
      }
    }
  }

  lemma SeatFrom(curr: nat, next: nat, i: nat)
    requires next == NextSeat(curr) && next <= i < next + 3
    ensures Seat(curr, i - next) == i % 4
    ensures i % 4 == next <==> i - next == 0
  {
  }

  lemma PendingStart(ids: seq<int>, curr: nat, pai: Card, source: int, rtn: seq<seq<int>>)
    requires |rtn| == MAX_PLAYER_COUNT
    requires |ids| == MAX_PLAYER_COUNT
    ensures PendingUpTo(ids, curr, 0, pai, source, rtn) == []
  {
  }

  lemma PendingStep(ids: seq<int>, curr: nat, n: nat, pai: Card, source: int, rtn: seq<seq<int>>)
    requires |rtn| == MAX_PLAYER_COUNT
    requires |ids| == MAX_PLAYER_COUNT
    ensures PendingUpTo(ids, curr, n + 1, pai, source, rtn)
         == PendingUpTo(ids, curr, n, pai, source, rtn) + ClaimAt(ids, Seat(curr, n), n == 0, pai, source, rtn[Seat(curr, n)])
  {
  }

  lemma PendingWhole(ids: seq<int>, curr: nat, pai: Card, source: int, rtn: seq<seq<int>>)
    requires |rtn| == MAX_PLAYER_COUNT
    requires |ids| == MAX_PLAYER_COUNT
    ensures PendingUpTo(ids, curr, 3, pai, source, rtn) == Pending(ids, curr, pai, source, rtn)
  {
    hide SeatClaim;
    assert PendingUpTo(ids, curr, 1, pai, source, rtn) == SeatClaim(ids, curr, 0, pai, source, rtn);
    assert PendingUpTo(ids, curr, 2, pai, source, rtn)
        == PendingUpTo(ids, curr, 1, pai, source, rtn) + SeatClaim(ids, curr, 1, pai, source, rtn);
  }

  lemma AskNobody(list: seq<Claim>)
    ensures Ask(list).0.None? ==> Ask(list).1 == list
  {
  }

  lemma RobbersStart(ids: seq<int>, curr: nat, pai: Card, owner: int, wins: seq<bool>, code: int)
    requires |ids| == MAX_PLAYER_COUNT && |wins| == MAX_PLAYER_COUNT
    ensures RobbersUpTo(ids, curr, 0, pai, owner, wins, code) == []
  {
  }

  lemma RobbersStep(ids: seq<int>, curr: nat, n: nat, pai: Card, owner: int, wins: seq<bool>, code: int)
    requires |ids| == MAX_PLAYER_COUNT && |wins| == MAX_PLAYER_COUNT
    ensures RobbersUpTo(ids, curr, n + 1, pai, owner, wins, code)
         == RobbersUpTo(ids, curr, n, pai, owner, wins, code) + RobberAt(ids, Seat(curr, n), pai, owner, wins[Seat(curr, n)], code)
  {
  }

  lemma RobbersWhole(ids: seq<int>, curr: nat, pai: Card, owner: int, wins: seq<bool>, code: int)
    requires |ids| == MAX_PLAYER_COUNT && |wins| == MAX_PLAYER_COUNT
    ensures RobbersUpTo(ids, curr, 3, pai, owner, wins, code) == Robbers(ids, curr, pai, owner, wins, code)
  {
    hide SeatRobber;
    assert RobbersUpTo(ids, curr, 1, pai, owner, wins, code) == SeatRobber(ids, curr, 0, pai, owner, wins, code);
    assert RobbersUpTo(ids, curr, 2, pai, owner, wins, code)
        == RobbersUpTo(ids, curr, 1, pai, owner, wins, code) + SeatRobber(ids, curr, 1, pai, owner, wins, code);
  }

  /** The robbers among the first `n` seats. */
  function RobbersUpTo(ids: seq<int>, curr: nat, n: nat, pai: Card, owner: int, wins: seq<bool>, code: int): seq<Claim>
    requires |ids| == MAX_PLAYER_COUNT && |wins| == MAX_PLAYER_COUNT
  {
    if n == 0 then []
    else RobbersUpTo(ids, curr, n - 1, pai, owner, wins, code) + SeatRobber(ids, curr, n - 1, pai, owner, wins, code)
  }

  /** The pending list after the first `n` seats. */
  function PendingUpTo(ids: seq<int>, curr: nat, n: nat, pai: Card, source: int, rtn: seq<seq<int>>): seq<Claim>
    requires |rtn| == MAX_PLAYER_COUNT
    requires |ids| == MAX_PLAYER_COUNT
  {
    if n == 0 then []
    else PendingUpTo(ids, curr, n - 1, pai, source, rtn) + SeatClaim(ids, curr, n - 1, pai, source, rtn)
  }
}
