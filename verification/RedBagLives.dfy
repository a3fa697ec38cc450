/** The life of one red bag in its group's dictionary (bocchi/builtin_plugins/gold_redbag/config.py:160-165, 220-346):
    it is stored as it was asked for, opened only by whom it is meant for, and gone when it is finished, settled,
    expired, removed or overwritten. */
module RedBagLives {
  import opened Common
  import opened Gold
  import opened RedBags
  import opened RedBagRuns

  // ---- What an opening does to one bag ----

  /** The user may have been marked in festivals, and nothing else changes in them. */
  ghost predicate OnlyMarks(before: Festivals, after: Festivals, user: Id) {
    && after.Keys == before.Keys
    && forall uuid | uuid in before :: after[uuid] == before[uuid] || after[uuid] == before[uuid] + {user}
  }

  lemma {:induction false} OpeningOnlyMarks(bags: seq<Bag>, wallet: map<Id, int>, festivals: Festivals, user: Id)
    requires HasShares(bags)
    ensures OnlyMarks(festivals, OpenBags(bags, wallet, festivals, user).festivals, user)
  {
    if bags == [] {
    } else {
      OpeningOnlyMarks(bags[..|bags| - 1], wallet, festivals, user);
    }
  }

  lemma {:induction false} GivenByBags(bags: seq<Bag>, wallet: map<Id, int>, festivals: Festivals, user: Id, id: Id)
    requires HasShares(bags) && Get(bags, id) == None
    ensures id !in OpenBags(bags, wallet, festivals, user).given
  {
    if bags == [] {
    } else {
      GivenByBags(bags[..|bags| - 1], wallet, festivals, user, id);
    }
  }

  /** What is left of a bag that is reached while the festivals stand so. */
  function Opened(bag: Bag, user: Id, festivals: Festivals): Option<Bag>
    requires bag.shares != []
  {
    if !Takes(bag, user, festivals) then Some(bag)
    else if |bag.openers| + (if user in bag.openers then 0 else 1) == bag.num then None
    else Some(bag.(shares := bag.shares[..|bag.shares| - 1],
                   openers := bag.openers[user := bag.shares[|bag.shares| - 1]]))
  }

  /** What an opening has done to the bag of one promoter. */
  ghost predicate OpensAs(o: Opening, bag: Bag, user: Id, festivals: Festivals)
    requires bag.shares != []
  {
    && Get(Left(o), bag.promoter) == Opened(bag, user, festivals)
    && (bag.promoter in o.given <==> Takes(bag, user, festivals))
    && (bag.promoter in o.given ==> o.given[bag.promoter] == bag.shares[|bag.shares| - 1])
  }

  lemma GetLast(bags: seq<Bag>, bag: Bag, id: Id)
    ensures Get(bags + [bag], id) == if bag.promoter == id then Some(bag) else Get(bags, id)
  {
    assert (bags + [bag])[..|bags|] == bags;
  }

  /** The bag is the last one reached. */
  lemma LastOpens(o: Opening, bag: Bag, user: Id)
    requires bag.shares != [] && bag.promoter !in o.settled && Get(o.bags, bag.promoter) == None
    requires bag.promoter !in o.given
    ensures OpensAs(OpenBag(o, bag, user), bag, user, o.festivals)
  {
    OpenBagLeft(o, bag, user);
    GetAfterRemoveAll(o.bags, o.settled, bag.promoter);
    GetLast(Left(o), bag, bag.promoter);
    GetLast(Left(o), Popped(bag, user), bag.promoter);
    if Takes(bag, user, o.festivals) {
      assert Popped(bag, user).openers.Keys == bag.openers.Keys + {user};
    }
  }

  lemma LaterLeavesBags(o: Opening, later: Bag, user: Id, id: Id)
    requires later.shares != [] && later.promoter !in o.settled && Get(o.bags, later.promoter) == None
    requires later.promoter != id
    ensures Get(Left(OpenBag(o, later, user)), id) == Get(Left(o), id)
  {
    OpenBagLeft(o, later, user);
    GetLast(Left(o), later, id);
    GetLast(Left(o), Popped(later, user), id);
  }

  lemma BagGives(o: Opening, bag: Bag, user: Id)
    requires bag.shares != []
    ensures OpenBag(o, bag, user).given ==
            if Takes(bag, user, o.festivals) then o.given[bag.promoter := bag.shares[|bag.shares| - 1]] else o.given
  {
  }

  /** A bag reached later leaves the others as they are. */
  lemma LaterLeaves(o: Opening, later: Bag, user: Id, id: Id)
    requires later.shares != [] && later.promoter !in o.settled && Get(o.bags, later.promoter) == None
    requires later.promoter != id
    ensures Get(Left(OpenBag(o, later, user)), id) == Get(Left(o), id)
    ensures id in OpenBag(o, later, user).given <==> id in o.given
    ensures id in o.given ==> OpenBag(o, later, user).given[id] == o.given[id]
  {
    LaterLeavesBags(o, later, user, id);
    BagGives(o, later, user);
  }

  /** Opening does to each bag what the festivals allow when it is reached. */
  lemma {:induction false} OpeningOf(bags: seq<Bag>, wallet: map<Id, int>, festivals: Festivals, user: Id, id: Id)
    returns (bag: Bag, reached: Festivals)
    requires GroupOk(bags) && HasShares(bags) && Get(bags, id).Some?
    ensures Get(bags, id) == Some(bag) && bag.promoter == id && bag.shares != []
    ensures OnlyMarks(festivals, reached, user)
    ensures OpensAs(OpenBags(bags, wallet, festivals, user), bag, user, reached)
  {
    var init, last := bags[..|bags| - 1], bags[|bags| - 1];
    var o := OpenBags(init, wallet, festivals, user);
    OpenBagsKeys(init, wallet, festivals, user, last.promoter);
    if last.promoter == id {
      bag, reached := last, o.festivals;
      OpeningOnlyMarks(init, wallet, festivals, user);
      GivenByBags(init, wallet, festivals, user, id);
      LastOpens(o, last, user);
    } else {
      bag, reached := OpeningOf(init, wallet, festivals, user, id);
      LaterLeaves(o, last, user, id);
    }
  }

  /** The user gets just what was taken from the bags. */
  lemma {:induction false} WalletGetsGiven(bags: seq<Bag>, wallet: map<Id, int>, festivals: Festivals, user: Id)
    requires GroupOk(bags) && HasShares(bags)
    ensures var o := OpenBags(bags, wallet, festivals, user);
      GoldOf(o.wallet, user) == GoldOf(wallet, user) + Total(o.given)
  {
    if bags == [] {
    } else {
      var init, last := bags[..|bags| - 1], bags[|bags| - 1];
      WalletGetsGiven(init, wallet, festivals, user);
      GivenByBags(init, wallet, festivals, user, last.promoter);
      BagPaysGiven(OpenBags(init, wallet, festivals, user), last, user);
    }
  }

  lemma BagPaysGiven(o: Opening, bag: Bag, user: Id)
    requires bag.shares != [] && bag.promoter !in o.given
    ensures var next := OpenBag(o, bag, user);
      GoldOf(next.wallet, user) - GoldOf(o.wallet, user) == Total(next.given) - Total(o.given)
  {
    BagGives(o, bag, user);
    OpenBagWallet(o, bag, user);
    TotalUpdate(o.given, bag.promoter, bag.shares[|bag.shares| - 1]);
  }

  /** Whoever is let in at a festive bag is marked in its festival, a share taken or not. */
  lemma {:induction false} LetInIsMarked(bags: seq<Bag>, wallet: map<Id, int>, festivals: Festivals, user: Id, k: nat)
    requires HasShares(bags) && k < |bags|
    requires Festive(bags[k]) && |bags[k].openers| < bags[k].num && bags[k].uuid in festivals
    ensures var after := OpenBags(bags, wallet, festivals, user).festivals;
      bags[k].uuid in after && user in after[bags[k].uuid]
  {
    var init := bags[..|bags| - 1];
    OpeningOnlyMarks(init, wallet, festivals, user);
    var o := OpenBags(init, wallet, festivals, user);
    if k < |init| {
      LetInIsMarked(init, wallet, festivals, user, k);
    }
    BagMarks(o, bags[|bags| - 1], user, bags[k].uuid);
  }

  lemma BagMarks(o: Opening, bag: Bag, user: Id, uuid: string)
    requires bag.shares != [] && uuid in o.festivals
    ensures var after := OpenBag(o, bag, user).festivals;
      && uuid in after && (user in o.festivals[uuid] ==> user in after[uuid])
      && (Festive(bag) && |bag.openers| < bag.num && bag.uuid == uuid ==> user in after[uuid])
  {
  }

  // ---- The other operations ----

  /** An accepted bag is stored as it was asked for, in place of an earlier one of the same promoter, who has an account
      then and pays for it unless it is a festival's. */
  lemma AddStores(g: Group, promoter: Id, amount: int, num: int, uuid: string, assigner: Id, shares: seq<int>, id: Id)
    ensures Get(Add(g, promoter, amount, num, uuid, assigner, shares).bags, id) ==
            if !(uuid == "" && (amount < 1 || GoldOf(g.wallet, promoter) < amount)) && id == promoter
            then Some(Bag(promoter, amount, num, uuid != "", uuid, assigner, map[], shares))
            else Get(g.bags, id)
    ensures Add(g, promoter, amount, num, uuid, assigner, shares).festivals == g.festivals
    ensures var after := Add(g, promoter, amount, num, uuid, assigner, shares).wallet;
      && promoter in after && (id != promoter ==> GoldOf(after, id) == GoldOf(g.wallet, id))
      && GoldOf(after, promoter) == GoldOf(g.wallet, promoter)
                                    - if uuid == "" && 1 <= amount <= GoldOf(g.wallet, promoter) then amount else 0
  {
    GetAfterPut(g.bags, NewBag(promoter, amount, num, uuid, assigner, shares), id);
  }

  /** Settling takes away just the promoter's bag, and ends its festival. */
  lemma SettleEnds(g: Group, user: Id, id: Id)
    ensures Get(Settle(g, user).bags, id) == if id == user then None else Get(g.bags, id)
    ensures Get(g.bags, user).Some? && Get(g.bags, user).value.festival && Get(g.bags, user).value.uuid != "" ==>
      Settle(g, user).festivals == g.festivals - {Get(g.bags, user).value.uuid}
    ensures !(Get(g.bags, user).Some? && Get(g.bags, user).value.festival && Get(g.bags, user).value.uuid != "") ==>
      Settle(g, user).festivals == g.festivals
  {
    GetAfterRemove(g.bags, user, id);
  }

  /** Expiring takes away just the bag under the festive key. */
  lemma ExpireEnds(g: Group, id: Id)
    ensures Get(Expire(g).bags, id) == if id == "FESTIVE" then None else Get(g.bags, id)
    ensures Expire(g).festivals == g.festivals && Expire(g).wallet == g.wallet
  {
    GetAfterRemove(g.bags, FESTIVE_KEY, id);
  }

  /** The promoter of the first festive bag. */
  lemma {:induction false} FirstFestiveIs(bags: seq<Bag>) returns (k: nat)
    ensures k <= |bags| && forall j | 0 <= j < k :: !bags[j].festival
    ensures FirstFestive(bags) == if k < |bags| then Some(bags[k].promoter) else None
    ensures k < |bags| ==> bags[k].festival
  {
    if bags == [] {
      k := 0;
    } else {
      k := FirstFestiveIs(bags[..|bags| - 1]);
      if k == |bags| - 1 && !bags[k].festival {
        k := |bags|;
      }
    }
  }

  /** A festival starts with nobody having taken part, and is over for everybody; other festivals go on. */
  lemma FestivalsStartAndEnd(g: Group, uuid: string, other: string)
    ensures var started := NextGroup(g, StartFestival(uuid));
      && started.festivals.Keys == g.festivals.Keys + {uuid} && started.festivals[uuid] == {}
      && (other in g.festivals && other != uuid ==> started.festivals[other] == g.festivals[other])
      && started.bags == g.bags && started.wallet == g.wallet
    ensures var ended := NextGroup(g, EndFestival(uuid));
      && ended.festivals.Keys == g.festivals.Keys - {uuid}
      && (other in g.festivals && other != uuid ==> ended.festivals[other] == g.festivals[other])
      && ended.bags == g.bags && ended.wallet == g.wallet
  {
  }

  lemma RemoveFestiveEnds(g: Group, id: Id)
    ensures Get(RemoveFestive(g).bags, id) ==
            if FirstFestive(g.bags) == Some(id) && id != "" then None else Get(g.bags, id)
    ensures RemoveFestive(g).festivals == g.festivals && RemoveFestive(g).wallet == g.wallet
  {
    if FirstFestive(g.bags).Some? {
      GetAfterRemove(g.bags, FirstFestive(g.bags).value, id);
    }
  }

  // ---- Whole runs ----

  /** The step puts another bag in the place of the promoter's, or takes it away. */
  predicate Ends(s: State, step: Step, g: nat, id: Id)
    requires step.g < |s.groups|
  {
    step.g == g &&
    match step.event
    case AddBag(promoter, amount, _, uuid, _, _) =>
      promoter == id && !Refused(GroupAt(s, g), promoter, amount, uuid)
    case SettleBag(user) => user == id
    case ExpireFestive => id == FESTIVE_KEY
    case RemoveFirstFestive => FirstFestive(s.groups[g]) == Some(id)
    case _ => false
  }

  /** All that is known of the bag from the moment it was stored. */
  predicate SameBag(was: Bag, bag: Bag) {
    && bag.promoter == was.promoter && bag.amount == was.amount && bag.num == was.num && bag.festival == was.festival
    && bag.uuid == was.uuid && bag.assigner == was.assigner
  }

  lemma StepKeepsBag(s: State, step: Step, g: nat, id: Id)
    requires Inv(s) && Enabled(s, step) && g < |s.groups| && Get(s.groups[g], id).Some? && !Ends(s, step, g, id)
    ensures var bag, after := Get(s.groups[g], id).value, Get(Next(s, step).groups[g], id);
      && (!(step.g == g && step.event.OpenAll?) ==> after == Some(bag))
      && (step.g == g && step.event.OpenAll? ==>
            && (after.Some? ==> SameBag(bag, after.value))
            && (bag.assigner != "" && step.event.user != bag.assigner ==> after == Some(bag)))
  {
    if step.g == g {
      var group := GroupAt(s, g);
      match step.event
      case AddBag(promoter, amount, num, uuid, assigner, shares) =>
        AddStores(group, promoter, amount, num, uuid, assigner, shares, id);
      case OpenAll(user) => var bag, reached := OpeningOf(group.bags, group.wallet, group.festivals, user, id);
      case SettleBag(user) => SettleEnds(group, user, id);
      case ExpireFestive => ExpireEnds(group, id);
      case RemoveFirstFestive => RemoveFestiveEnds(group, id);
      case _ =>
    }
  }

  /** No step of the run ends the bag, nor does the given user open in its group. */
  ghost predicate Spares(s: State, steps: seq<Step>, g: nat, id: Id, user: Id)
    requires Inv(s) && ValidRun(s, steps)
    decreases |steps|
  {
    steps == [] ||
    (&& !Ends(s, steps[0], g, id) && !(steps[0].g == g && steps[0].event == OpenAll(user))
     && (StepAccounts(s, steps[0]); Spares(Next(s, steps[0]), steps[1..], g, id, user)))
  }

  lemma {:induction false} AssignedWaits(s: State, steps: seq<Step>, g: nat, id: Id, bag: Bag)
    requires Inv(s) && ValidRun(s, steps) && g < |s.groups| && Get(s.groups[g], id) == Some(bag)
    requires bag.assigner != "" && Spares(s, steps, g, id, bag.assigner)
    ensures var t := Run(s, steps); Inv(t) && g < |t.groups| && Get(t.groups[g], id) == Some(bag)
    decreases |steps|
  {
    if steps == [] {
    } else {
      StepAccounts(s, steps[0]);
      StepKeepsBag(s, steps[0], g, id);
      AssignedWaits(Next(s, steps[0]), steps[1..], g, id, bag);
    }
  }

  /** In an opening of its group a bag for one person is left alone by everybody else; that person gets all of it,
      unless its festival refuses. */
  lemma AssignedOpens(g: Group, id: Id, bag: Bag, user: Id) returns (reached: Festivals)
    requires GroupOk(g.bags) && HasShares(g.bags) && Get(g.bags, id) == Some(bag) && bag.assigner != ""
    ensures OnlyMarks(g.festivals, reached, user)
    ensures var o := OpenBags(g.bags, g.wallet, g.festivals, user);
      if user == bag.assigner && (bag.festival && bag.uuid != "" ==> Unclaimed(reached, bag.uuid, user))
      then Get(OpenedBy(g, user).bags, id) == None && id in o.given && o.given[id] == bag.amount
      else Get(OpenedBy(g, user).bags, id) == Some(bag) && id !in o.given
  {
    var found;
    found, reached := OpeningOf(g.bags, g.wallet, g.festivals, user, id);
    FairAt(g.bags, id);
    assert |bag.shares| == 1 && |bag.openers| == 0 && bag.openers == map[];
    assert bag.shares[..0] == [] && Sum(bag.shares) == bag.shares[0];
  }

  lemma {:induction false} FairAt(bags: seq<Bag>, id: Id)
    requires GroupOk(bags) && Get(bags, id).Some?
    ensures Fair(Get(bags, id).value)
  {
    if bags[|bags| - 1].promoter != id {
      FairAt(bags[..|bags| - 1], id);
    }
  }

  /** Main result: an accepted bag for one person is in its group as it was asked for, through every run in which it is
      not overwritten, settled, expired or removed and that person does not open; then an opening by anybody else pays
      nothing from it and leaves it, and an opening by that person pays the whole amount, unless its festival
      refuses. */
  lemma AssignedBagIsForOne(s: State, add: Step, steps: seq<Step>, user: Id) returns (reached: Festivals)
    requires Inv(s) && Enabled(s, add) && add.event.AddBag? && add.event.assigner != ""
    requires !Refused(GroupAt(s, add.g), add.event.promoter, add.event.amount, add.event.uuid)
    requires Inv(Next(s, add)) && ValidRun(Next(s, add), steps)
    requires Spares(Next(s, add), steps, add.g, add.event.promoter, add.event.assigner)
    ensures var t := Run(Next(s, add), steps);
      && add.g < |t.groups|
      && Get(t.groups[add.g], add.event.promoter) ==
           Some(Bag(add.event.promoter, add.event.amount, add.event.num, add.event.uuid != "", add.event.uuid,
                    add.event.assigner, map[], add.event.shares))
    ensures var t := Run(Next(s, add), steps);
      var group := GroupAt(t, add.g);
      && HasShares(group.bags) && OnlyMarks(t.festivals, reached, user)
      && var o, id := OpenBags(group.bags, group.wallet, group.festivals, user), add.event.promoter;
         if user == add.event.assigner && (add.event.uuid != "" ==> Unclaimed(reached, add.event.uuid, user))
         then Get(OpenedBy(group, user).bags, id) == None && id in o.given && o.given[id] == add.event.amount
         else Get(OpenedBy(group, user).bags, id) == Get(t.groups[add.g], id) && id !in o.given
  {
    var e := add.event;
    AddStores(GroupAt(s, add.g), e.promoter, e.amount, e.num, e.uuid, e.assigner, e.shares, e.promoter);
    var bag := Bag(e.promoter, e.amount, e.num, e.uuid != "", e.uuid, e.assigner, map[], e.shares);
    AssignedWaits(Next(s, add), steps, add.g, e.promoter, bag);
    reached := AssignedOpens(GroupAt(Run(Next(s, add), steps), add.g), e.promoter, bag, user);
  }

  ghost predicate NothingEnds(s: State, steps: seq<Step>, g: nat, id: Id)
    requires Inv(s) && ValidRun(s, steps)
    decreases |steps|
  {
    steps == [] ||
    (!Ends(s, steps[0], g, id)
     && (StepAccounts(s, steps[0]); NothingEnds(Next(s, steps[0]), steps[1..], g, id)))
  }

  lemma StepAddsNone(s: State, step: Step, g: nat, id: Id)
    requires Inv(s) && Enabled(s, step) && g < |s.groups| && Get(s.groups[g], id) == None && !Ends(s, step, g, id)
    ensures Get(Next(s, step).groups[g], id) == None
  {
    if step.g == g {
      var group := GroupAt(s, g);
      match step.event
      case AddBag(promoter, amount, num, uuid, assigner, shares) =>
        AddStores(group, promoter, amount, num, uuid, assigner, shares, id);
      case OpenAll(user) =>
        OpenBagsKeys(group.bags, group.wallet, group.festivals, user, id);
        var o := OpenBags(group.bags, group.wallet, group.festivals, user);
        GetAfterRemoveAll(o.bags, o.settled, id);
      case SettleBag(user) => SettleEnds(group, user, id);
      case ExpireFestive => ExpireEnds(group, id);
      case RemoveFirstFestive => RemoveFestiveEnds(group, id);
      case _ =>
    }
  }

  /** Through every run that does not end it a bag keeps its promoter, amount, number of shares, festival and assigner
      until its last share is taken. */
  lemma {:induction false} BagStaysTheSame(s: State, steps: seq<Step>, g: nat, id: Id, bag: Bag)
    requires Inv(s) && ValidRun(s, steps) && g < |s.groups| && NothingEnds(s, steps, g, id)
    requires Get(s.groups[g], id).Some? ==> SameBag(bag, Get(s.groups[g], id).value)
    ensures var t := Run(s, steps);
      g < |t.groups| && (Get(t.groups[g], id).Some? ==> SameBag(bag, Get(t.groups[g], id).value))
    decreases |steps|
  {
    if steps == [] {
    } else {
      StepAccounts(s, steps[0]);
      if Get(s.groups[g], id).Some? {
        StepKeepsBag(s, steps[0], g, id);
      } else {
        StepAddsNone(s, steps[0], g, id);
      }
      BagStaysTheSame(Next(s, steps[0]), steps[1..], g, id, bag);
    }
  }

  /** Main result: a bag that was added with a festival's id is one of that festival's bags as long as it is there, so
      its shares are among those of which each user gets one at most. */
  lemma AddedBagIsFestive(s: State, add: Step, steps: seq<Step>)
    requires Inv(s) && Enabled(s, add) && add.event.AddBag? && add.event.uuid != ""
    requires Inv(Next(s, add)) && ValidRun(Next(s, add), steps)
    requires NothingEnds(Next(s, add), steps, add.g, add.event.promoter)
    ensures Get(Next(s, add).groups[add.g], add.event.promoter).Some?
    ensures var t := Run(Next(s, add), steps);
      && add.g < |t.groups|
      && var bag := Get(t.groups[add.g], add.event.promoter);
         bag.Some? ==> Festive(bag.value) && bag.value.uuid == add.event.uuid
  {
    var e := add.event;
    AddStores(GroupAt(s, add.g), e.promoter, e.amount, e.num, e.uuid, e.assigner, e.shares, e.promoter);
    BagStaysTheSame(Next(s, add), steps, add.g, e.promoter, Get(Next(s, add).groups[add.g], e.promoter).value);
  }
}
