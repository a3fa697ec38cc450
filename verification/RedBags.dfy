/** Red bags of a group and the gold they hold (bocchi/builtin_plugins/gold_redbag/config.py:19-346).
    The dictionary from promoter to red bag is a list in insertion order, one bag to a promoter; an absent
    assigner or festival uuid is the empty string, as the code tests both for truth. */
module RedBags {
  import opened Common
  import opened Gold
  import RandomSplit

  const FESTIVE_KEY := "FESTIVE"

  datatype Bag = Bag(promoter: Id, amount: int, num: int, festival: bool, uuid: string, assigner: Id,
                     openers: map<Id, int>, shares: seq<int>)

  /** For every running festival, who has already taken a share of it. */
  type Festivals = map<string, set<Id>>

  // ---- The dictionary of a group ----

  function Get(bags: seq<Bag>, id: Id): Option<Bag> {
    if bags == [] then None
    else if bags[|bags| - 1].promoter == id then Some(bags[|bags| - 1])
    else Get(bags[..|bags| - 1], id)
  }

  /** Assigning to a key keeps the position of an existing entry. */
  function Put(bags: seq<Bag>, bag: Bag): seq<Bag> {
    if bags == [] then [bag]
    else if bags[|bags| - 1].promoter == bag.promoter then bags[..|bags| - 1] + [bag]
    else Put(bags[..|bags| - 1], bag) + [bags[|bags| - 1]]
  }

  function Remove(bags: seq<Bag>, id: Id): seq<Bag> {
    if bags == [] then []
    else if bags[|bags| - 1].promoter == id then Remove(bags[..|bags| - 1], id)
    else Remove(bags[..|bags| - 1], id) + [bags[|bags| - 1]]
  }

  /** The gold waiting in the bags of a group. */
  function Unopened(bags: seq<Bag>): int {
    if bags == [] then 0 else Unopened(bags[..|bags| - 1]) + Sum(bags[|bags| - 1].shares)
  }

  /** The gold waiting in one promoter's bag. */
  function Held(bags: seq<Bag>, id: Id): int {
    match Get(bags, id) case None => 0 case Some(bag) => Sum(bag.shares)
  }

  /** Every share is unopened or opened by someone, and the gold of both adds up to the amount; a bag meant
      for one person has one share; a bag that stays still has a share to open. */
  ghost predicate Fair(bag: Bag) {
    && |bag.shares| + |bag.openers| == Max(1, bag.num)
    && Sum(bag.shares) + Total(bag.openers) == bag.amount
    && (bag.assigner != "" ==> bag.num == 1)
    && bag.shares != []
  }

  ghost predicate GroupOk(bags: seq<Bag>) {
    bags == [] ||
    (&& GroupOk(bags[..|bags| - 1]) && Fair(bags[|bags| - 1])
     && Get(bags[..|bags| - 1], bags[|bags| - 1].promoter) == None)
  }

  lemma {:induction false} RemoveAbsent(bags: seq<Bag>, id: Id)
    requires Get(bags, id) == None
    ensures Remove(bags, id) == bags
  {
    if bags == [] {
    } else {
      RemoveAbsent(bags[..|bags| - 1], id);
    }
  }

  lemma {:induction false} GetAfterRemove(bags: seq<Bag>, id: Id, other: Id)
    ensures Get(Remove(bags, id), other) == if other == id then None else Get(bags, other)
  {
    if bags == [] {
    } else {
      GetAfterRemove(bags[..|bags| - 1], id, other);
      assert (Remove(bags[..|bags| - 1], id) + [bags[|bags| - 1]])[..|Remove(bags[..|bags| - 1], id)|]
          == Remove(bags[..|bags| - 1], id);
    }
  }

  lemma UnopenedSnoc(bags: seq<Bag>, bag: Bag)
    ensures Unopened(bags + [bag]) == Unopened(bags) + Sum(bag.shares)
  {
  }

  lemma GroupOkSnoc(bags: seq<Bag>, bag: Bag)
    requires GroupOk(bags) && Fair(bag) && Get(bags, bag.promoter) == None
    ensures GroupOk(bags + [bag])
  {
  }

  lemma {:induction false} RemoveOk(bags: seq<Bag>, id: Id)
    requires GroupOk(bags)
    ensures GroupOk(Remove(bags, id))
    ensures Unopened(Remove(bags, id)) == Unopened(bags) - Held(bags, id)
  {
    if bags == [] {
    } else {
      var init, last := bags[..|bags| - 1], bags[|bags| - 1];
      RemoveOk(init, id);
      if last.promoter == id {
        RemoveAbsent(init, id);
      } else {
        GetAfterRemove(init, id, last.promoter);
        GroupOkSnoc(Remove(init, id), last);
        UnopenedSnoc(Remove(init, id), last);
      }
    }
  }

  lemma {:induction false} GetAfterPut(bags: seq<Bag>, bag: Bag, other: Id)
    ensures Get(Put(bags, bag), other) == if other == bag.promoter then Some(bag) else Get(bags, other)
  {
    if bags == [] {
    } else {
      var init, last := bags[..|bags| - 1], bags[|bags| - 1];
      GetAfterPut(init, bag, other);
      assert (Put(init, bag) + [last])[..|Put(init, bag)|] == Put(init, bag);
      assert (init + [bag])[..|init|] == init;
    }
  }

  lemma {:induction false} PutOk(bags: seq<Bag>, bag: Bag)
    requires GroupOk(bags) && Fair(bag)
    ensures GroupOk(Put(bags, bag))
    ensures Unopened(Put(bags, bag)) == Unopened(bags) - Held(bags, bag.promoter) + Sum(bag.shares)
  {
    if bags == [] {
      GroupOkSnoc([], bag);
      UnopenedSnoc([], bag);
      assert [] + [bag] == [bag];
    } else {
      var init, last := bags[..|bags| - 1], bags[|bags| - 1];
      if last.promoter == bag.promoter {
        GroupOkSnoc(init, bag);
        UnopenedSnoc(init, bag);
      } else {
        PutOk(init, bag);
        GetAfterPut(init, bag, last.promoter);
        GroupOkSnoc(Put(init, bag), last);
        UnopenedSnoc(Put(init, bag), last);
      }
    }
  }

  // ---- Opening ----

  predicate Festive(bag: Bag) { bag.festival && bag.uuid != "" }

  /** FestiveRedBagManage.check: the festival is running and the user has not taken part. */
  predicate Unclaimed(festivals: Festivals, uuid: string, user: Id) {
    uuid in festivals && user !in festivals[uuid]
  }

  predicate Admits(bag: Bag, user: Id, festivals: Festivals) {
    |bag.openers| < bag.num && (Festive(bag) ==> Unclaimed(festivals, bag.uuid, user))
  }

  predicate Takes(bag: Bag, user: Id, festivals: Festivals) {
    && Admits(bag, user, festivals)
    && if bag.assigner != "" then bag.assigner == user else user !in bag.openers
  }

  /** The bag loses its last share to the user. */
  function Popped(bag: Bag, user: Id): Bag
    requires bag.shares != []
  {
    bag.(shares := bag.shares[..|bag.shares| - 1], openers := bag.openers[user := bag.shares[|bag.shares| - 1]])
  }

  function Claim(festivals: Festivals, uuid: string, user: Id): Festivals {
    if uuid in festivals then festivals[uuid := festivals[uuid] + {user}] else festivals
  }

  /** What an opening leaves: the bags, the wallets and the festivals, which bags it has finished, and what it has
      taken from whose bag. */
  datatype Opening = Opening(bags: seq<Bag>, wallet: map<Id, int>, festivals: Festivals, settled: seq<Id>,
                             given: map<Id, int>)

  function OpenBag(o: Opening, bag: Bag, user: Id): Opening
    requires bag.shares != []
  {
    if !Admits(bag, user, o.festivals) then o.(bags := o.bags + [bag])
    else
      var festivals := if Festive(bag) then Claim(o.festivals, bag.uuid, user) else o.festivals;
      if Takes(bag, user, o.festivals) then
        var popped, share := Popped(bag, user), bag.shares[|bag.shares| - 1];
        Opening(o.bags + [popped], Credit(o.wallet, user, share), festivals,
                if bag.num == |popped.openers| then o.settled + [bag.promoter] else o.settled,
                o.given[bag.promoter := share])
      else
        Opening(o.bags + [bag], o.wallet, festivals, o.settled, o.given)
  }

  predicate HasShares(bags: seq<Bag>) { forall i | 0 <= i < |bags| :: bags[i].shares != [] }

  /** The effect of `open` on the bags in order, before the finished ones are deleted. */
  function OpenBags(bags: seq<Bag>, wallet: map<Id, int>, festivals: Festivals, user: Id): Opening
    requires HasShares(bags)
  {
    if bags == [] then Opening([], wallet, festivals, [], map[])
    else OpenBag(OpenBags(bags[..|bags| - 1], wallet, festivals, user), bags[|bags| - 1], user)
  }

  function RemoveAll(bags: seq<Bag>, ids: seq<Id>): seq<Bag> {
    if ids == [] then bags else Remove(RemoveAll(bags, ids[..|ids| - 1]), ids[|ids| - 1])
  }

  /** The counts and the gold of a bag move together when a share is taken; a bag runs out of shares
      exactly when the number of openers reaches the number of shares. */
  lemma PoppedBalances(bag: Bag, user: Id)
    requires Fair(bag) && |bag.openers| < bag.num && (bag.assigner == "" ==> user !in bag.openers)
    ensures var popped := Popped(bag, user);
      && |popped.shares| + |popped.openers| == popped.num
      && Sum(popped.shares) + Total(popped.openers) == bag.amount
      && (popped.shares == [] <==> |popped.openers| == popped.num)
      && Sum(bag.shares) == Sum(popped.shares) + bag.shares[|bag.shares| - 1]
  {
    if bag.assigner != "" {
      assert |bag.openers| == 0;
      assert bag.openers == map[];
    }
    TotalUpdate(bag.openers, user, bag.shares[|bag.shares| - 1]);
    assert |bag.openers[user := 0]| == |bag.openers| + 1 by {
      assert bag.openers[user := 0].Keys == bag.openers.Keys + {user};
    }
    assert Popped(bag, user).openers.Keys == bag.openers.Keys + {user};
  }

  /** Gold beyond what the accounts were opened with. */
  ghost function Earned(wallet: map<Id, int>): int { Total(wallet) - STARTING_GOLD * |wallet| }

  lemma EarnedCredit(wallet: map<Id, int>, id: Id, gold: int)
    ensures Earned(Credit(wallet, id, gold)) == Earned(wallet) + gold
  {
    TotalCredit(wallet, id, gold);
    assert Credit(wallet, id, gold).Keys == wallet.Keys + {id};
  }

  /** What `open` leaves in the dictionary. */
  function Left(o: Opening): seq<Bag> { RemoveAll(o.bags, o.settled) }

  lemma {:induction false} RemoveAllSnoc(bags: seq<Bag>, bag: Bag, ids: seq<Id>)
    requires bag.promoter !in ids
    ensures RemoveAll(bags + [bag], ids) == RemoveAll(bags, ids) + [bag]
  {
    if ids == [] {
    } else {
      RemoveAllSnoc(bags, bag, ids[..|ids| - 1]);
      var rest := RemoveAll(bags, ids[..|ids| - 1]);
      assert (rest + [bag])[..|rest|] == rest;
    }
  }

  lemma {:induction false} GetAfterRemoveAll(bags: seq<Bag>, ids: seq<Id>, id: Id)
    requires Get(bags, id) == None
    ensures Get(RemoveAll(bags, ids), id) == None
  {
    if ids == [] {
    } else {
      GetAfterRemoveAll(bags, ids[..|ids| - 1], id);
      GetAfterRemove(RemoveAll(bags, ids[..|ids| - 1]), ids[|ids| - 1], id);
    }
  }

  /** A finished bag goes, a bag that was taken from but not finished stays with a share less. */
  lemma OpenBagLeft(o: Opening, bag: Bag, user: Id)
    requires bag.shares != [] && bag.promoter !in o.settled && Get(o.bags, bag.promoter) == None
    ensures Left(OpenBag(o, bag, user)) ==
            if !Takes(bag, user, o.festivals) then Left(o) + [bag]
            else if bag.num == |Popped(bag, user).openers| then Left(o)
            else Left(o) + [Popped(bag, user)]
  {
    RemoveAllSnoc(o.bags, bag, o.settled);
    var popped := Popped(bag, user);
    RemoveAllSnoc(o.bags, popped, o.settled);
    if Takes(bag, user, o.festivals) && bag.num == |popped.openers| {
      var left := Left(o);
      assert (o.settled + [bag.promoter])[..|o.settled|] == o.settled;
      assert (left + [popped])[..|left|] == left;
      GetAfterRemoveAll(o.bags, o.settled, bag.promoter);
      RemoveAbsent(left, bag.promoter);
    }
  }

  lemma {:induction false} SharesOfGroup(bags: seq<Bag>)
    requires GroupOk(bags)
    ensures HasShares(bags)
  {
    if bags == [] {
    } else {
      SharesOfGroup(bags[..|bags| - 1]);
    }
  }

  lemma OpenBagKeys(o: Opening, bag: Bag, user: Id, id: Id)
    requires bag.shares != [] && bag.promoter != id && Get(o.bags, id) == None && id !in o.settled
    ensures var next := OpenBag(o, bag, user); Get(next.bags, id) == None && id !in next.settled
  {
  }

  /** Only promoters of the group's bags appear while `open` runs. */
  lemma {:induction false} OpenBagsKeys(bags: seq<Bag>, wallet: map<Id, int>, festivals: Festivals, user: Id, id: Id)
    requires HasShares(bags) && Get(bags, id) == None
    ensures var o := OpenBags(bags, wallet, festivals, user); Get(o.bags, id) == None && id !in o.settled
  {
    if bags == [] {
    } else {
      OpenBagsKeys(bags[..|bags| - 1], wallet, festivals, user, id);
      OpenBagKeys(OpenBags(bags[..|bags| - 1], wallet, festivals, user), bags[|bags| - 1], user, id);
    }
  }

  lemma TakenBag(left: seq<Bag>, bag: Bag, user: Id)
    requires Fair(bag) && Get(left, bag.promoter) == None && GroupOk(left)
    requires |bag.openers| < bag.num && (bag.assigner == "" ==> user !in bag.openers)
    ensures var popped := Popped(bag, user);
      var after := if bag.num == |popped.openers| then left else left + [popped];
      GroupOk(after) && Unopened(after) == Unopened(left) + Sum(bag.shares) - bag.shares[|bag.shares| - 1]
  {
    PoppedBalances(bag, user);
    var popped := Popped(bag, user);
    if bag.num != |popped.openers| {
      GroupOkSnoc(left, popped);
      UnopenedSnoc(left, popped);
    }
  }

  lemma OpenBagWallet(o: Opening, bag: Bag, user: Id)
    requires bag.shares != []
    ensures OpenBag(o, bag, user).wallet ==
            if Takes(bag, user, o.festivals) then Credit(o.wallet, user, bag.shares[|bag.shares| - 1]) else o.wallet
  {
  }

  /** The bag of which nothing is taken stays, with what it holds. */
  lemma KeptBag(left: seq<Bag>, bag: Bag)
    requires Fair(bag) && Get(left, bag.promoter) == None && GroupOk(left)
    ensures GroupOk(left + [bag]) && Unopened(left + [bag]) == Unopened(left) + Sum(bag.shares)
  {
    GroupOkSnoc(left, bag);
    UnopenedSnoc(left, bag);
  }

  lemma OpenBagKeeps(o: Opening, bag: Bag, user: Id)
    requires Fair(bag) && bag.promoter !in o.settled && Get(o.bags, bag.promoter) == None && GroupOk(Left(o))
    ensures var next := OpenBag(o, bag, user);
      && GroupOk(Left(next))
      && Earned(next.wallet) + Unopened(Left(next)) == Earned(o.wallet) + Unopened(Left(o)) + Sum(bag.shares)
  {
    var next := OpenBag(o, bag, user);
    OpenBagLeft(o, bag, user);
    OpenBagWallet(o, bag, user);
    GetAfterRemoveAll(o.bags, o.settled, bag.promoter);
    if Takes(bag, user, o.festivals) {
      TakenBag(Left(o), bag, user);
      EarnedCredit(o.wallet, user, bag.shares[|bag.shares| - 1]);
    } else {
      KeptBag(Left(o), bag);
    }
  }

  /** Opening moves gold from the bags to the user and keeps every remaining bag fair: the bags it deletes
      hold nothing. */
  lemma {:induction false} OpenKeeps(bags: seq<Bag>, wallet: map<Id, int>, festivals: Festivals, user: Id)
    requires GroupOk(bags) && HasShares(bags)
    ensures var o := OpenBags(bags, wallet, festivals, user);
      GroupOk(Left(o)) && Earned(o.wallet) + Unopened(Left(o)) == Earned(wallet) + Unopened(bags)
  {
    if bags == [] {
    } else {
      var init, last := bags[..|bags| - 1], bags[|bags| - 1];
      OpenKeeps(init, wallet, festivals, user);
      OpenBagsKeys(init, wallet, festivals, user, last.promoter);
      OpenBagKeeps(OpenBags(init, wallet, festivals, user), last, user);
    }
  }

  /** Nobody else's wallet changes. */
  lemma {:induction false} OpenPaysUser(bags: seq<Bag>, wallet: map<Id, int>, festivals: Festivals, user: Id, other: Id)
    requires HasShares(bags) && other != user
    ensures GoldOf(OpenBags(bags, wallet, festivals, user).wallet, other) == GoldOf(wallet, other)
  {
    if bags == [] {
    } else {
      OpenPaysUser(bags[..|bags| - 1], wallet, festivals, user, other);
    }
  }

  /** How many shares of one festival's bags the user takes. */
  function Grants(bags: seq<Bag>, wallet: map<Id, int>, festivals: Festivals, user: Id, uuid: string): nat
    requires HasShares(bags)
  {
    if bags == [] then 0
    else
      var o := OpenBags(bags[..|bags| - 1], wallet, festivals, user);
      var last := bags[|bags| - 1];
      Grants(bags[..|bags| - 1], wallet, festivals, user, uuid)
      + if Festive(last) && last.uuid == uuid && Takes(last, user, o.festivals) then 1 else 0
  }

  function Claims(festivals: Festivals, uuid: string, user: Id): nat {
    if Unclaimed(festivals, uuid, user) then 1 else 0
  }

  /** Taking a festive share uses up the user's one claim on that festival. */
  lemma {:induction false} GrantUsesClaim(bags: seq<Bag>, wallet: map<Id, int>, festivals: Festivals, user: Id,
                                          uuid: string, someone: Id)
    requires HasShares(bags)
    ensures var o := OpenBags(bags, wallet, festivals, user);
      Claims(o.festivals, uuid, someone) + (if someone == user then Grants(bags, wallet, festivals, user, uuid) else 0)
      <= Claims(festivals, uuid, someone)
  {
    if bags == [] {
    } else {
      GrantUsesClaim(bags[..|bags| - 1], wallet, festivals, user, uuid, someone);
    }
  }
}
