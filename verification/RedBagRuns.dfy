/** Runs of red-bag operations over several groups that share the wallets and the festivals
    (bocchi/builtin_plugins/gold_redbag/config.py:19-38, 160-165, 220-346). Every operation is one step. */
module RedBagRuns {
  import opened Common
  import opened Gold
  import opened RedBags
  import RandomSplit

  // ---- One group ----

  datatype Group = Group(bags: seq<Bag>, wallet: map<Id, int>, festivals: Festivals)

  ghost function Worth(g: Group): int { Earned(g.wallet) + Unopened(g.bags) }

  function OpenedBy(g: Group, user: Id): Group
    requires HasShares(g.bags)
  {
    var o := OpenBags(g.bags, g.wallet, g.festivals, user);
    Group(Left(o), o.wallet, o.festivals)
  }

  /** Give the rest of a bag back to the promoter; a festival ends with its bag. */
  function Settle(g: Group, user: Id): Group {
    match Get(g.bags, user)
    case None => g
    case Some(bag) =>
      Group(Remove(g.bags, user),
            if Sum(bag.shares) != 0 then Credit(g.wallet, user, Sum(bag.shares)) else g.wallet,
            if Festive(bag) then g.festivals - {bag.uuid} else g.festivals)
  }

  /** Only a promoter's own bag is refused for want of gold. */
  predicate Refused(g: Group, promoter: Id, amount: int, uuid: string) {
    uuid == "" && (amount < 1 || GoldOf(g.wallet, promoter) < amount)
  }

  function NewBag(promoter: Id, amount: int, num: int, uuid: string, assigner: Id, shares: seq<int>): Bag {
    Bag(promoter, amount, num, uuid != "", uuid, assigner, map[], shares)
  }

  /** A promoter pays for a new bag, a festive bag is paid by nobody; an earlier bag is overwritten. */
  function Add(g: Group, promoter: Id, amount: int, num: int, uuid: string, assigner: Id, shares: seq<int>): Group {
    if Refused(g, promoter, amount, uuid) then g.(wallet := Credit(g.wallet, promoter, 0))
    else
      Group(Put(g.bags, NewBag(promoter, amount, num, uuid, assigner, shares)),
            Credit(g.wallet, promoter, if uuid == "" then -amount else 0), g.festivals)
  }

  function Expire(g: Group): Group { g.(bags := Remove(g.bags, FESTIVE_KEY)) }

  /** The promoter of the first festive bag; an empty key is not deleted. */
  function FirstFestive(bags: seq<Bag>): Option<Id> {
    if bags == [] then None
    else if FirstFestive(bags[..|bags| - 1]).Some? then FirstFestive(bags[..|bags| - 1])
    else if bags[|bags| - 1].festival then Some(bags[|bags| - 1].promoter)
    else None
  }

  function RemoveFestive(g: Group): Group {
    match FirstFestive(g.bags)
    case None => g
    case Some(key) => if key == "" then g else g.(bags := Remove(g.bags, key))
  }

  lemma OpenConserves(g: Group, user: Id)
    requires GroupOk(g.bags) && HasShares(g.bags)
    ensures GroupOk(OpenedBy(g, user).bags) && Worth(OpenedBy(g, user)) == Worth(g)
  {
    OpenKeeps(g.bags, g.wallet, g.festivals, user);
  }

  /** Settling gives back exactly the unopened gold. */
  lemma SettleConserves(g: Group, user: Id)
    requires GroupOk(g.bags)
    ensures GroupOk(Settle(g, user).bags) && Worth(Settle(g, user)) == Worth(g)
    ensures GoldOf(Settle(g, user).wallet, user) == GoldOf(g.wallet, user) + Held(g.bags, user)
  {
    RemoveOk(g.bags, user);
    EarnedCredit(g.wallet, user, Held(g.bags, user));
  }

  ghost predicate NewBagOk(amount: int, num: int, assigner: Id, shares: seq<int>) {
    && (assigner != "" ==> num == 1)
    && RandomSplit.SplitsInto(amount, Max(1, num), shares)
  }

  lemma NewBagIsFair(promoter: Id, amount: int, num: int, uuid: string, assigner: Id, shares: seq<int>)
    requires NewBagOk(amount, num, assigner, shares)
    ensures Fair(NewBag(promoter, amount, num, uuid, assigner, shares))
  {
  }

  lemma PutNewBag(bags: seq<Bag>, promoter: Id, amount: int, num: int, uuid: string, assigner: Id, shares: seq<int>)
    requires GroupOk(bags) && NewBagOk(amount, num, assigner, shares)
    ensures var after := Put(bags, NewBag(promoter, amount, num, uuid, assigner, shares));
      && GroupOk(after) && HasShares(after)
      && Unopened(after) == Unopened(bags) - Held(bags, promoter) + amount
  {
    NewBagIsFair(promoter, amount, num, uuid, assigner, shares);
    var bag := NewBag(promoter, amount, num, uuid, assigner, shares);
    PutOk(bags, bag);
    SharesOfGroup(Put(bags, bag));
  }

  /** Adding a bag creates gold only for a festive bag and loses only what an overwritten bag still held. */
  lemma AddAccounts(g: Group, promoter: Id, amount: int, num: int, uuid: string, assigner: Id, shares: seq<int>)
    requires GroupOk(g.bags) && NewBagOk(amount, num, assigner, shares)
    ensures var after := Add(g, promoter, amount, num, uuid, assigner, shares);
      && GroupOk(after.bags) && (HasShares(g.bags) ==> HasShares(after.bags))
      && Worth(after) == Worth(g) + (if uuid == "" then 0 else amount)
                         - (if Refused(g, promoter, amount, uuid) then 0 else Held(g.bags, promoter))
  {
    if Refused(g, promoter, amount, uuid) {
      EarnedCredit(g.wallet, promoter, 0);
    } else {
      EarnedCredit(g.wallet, promoter, if uuid == "" then -amount else 0);
      PutNewBag(g.bags, promoter, amount, num, uuid, assigner, shares);
    }
  }

  // ---- Runs ----

  /** `used` are the festival ids given out so far; a new one is always fresh. */
  datatype State = State(groups: seq<seq<Bag>>, wallet: map<Id, int>, festivals: Festivals, used: set<string>)

  datatype Event =
    | AddBag(promoter: Id, amount: int, num: int, uuid: string, assigner: Id, shares: seq<int>)
    | OpenAll(user: Id)
    | SettleBag(user: Id)
    | ExpireFestive
    | RemoveFirstFestive
    | StartFestival(uuid: string)
    | EndFestival(uuid: string)

  /** An event in one of the groups; the last two kinds touch no group. */
  datatype Step = Step(g: nat, event: Event)

  ghost predicate Enabled(s: State, step: Step) {
    && step.g < |s.groups|
    && (step.event.AddBag? ==> NewBagOk(step.event.amount, step.event.num, step.event.assigner, step.event.shares))
    && (step.event.StartFestival? ==> step.event.uuid !in s.used)
  }

  function GroupAt(s: State, g: nat): Group
    requires g < |s.groups|
  {
    Group(s.groups[g], s.wallet, s.festivals)
  }

  function NextGroup(g: Group, event: Event): Group
    requires event.OpenAll? ==> HasShares(g.bags)
  {
    match event
    case AddBag(promoter, amount, num, uuid, assigner, shares) => Add(g, promoter, amount, num, uuid, assigner, shares)
    case OpenAll(user) => OpenedBy(g, user)
    case SettleBag(user) => Settle(g, user)
    case ExpireFestive => Expire(g)
    case RemoveFirstFestive => RemoveFestive(g)
    case StartFestival(uuid) => g.(festivals := g.festivals[uuid := {}])
    case EndFestival(uuid) => g.(festivals := g.festivals - {uuid})
  }

  function Next(s: State, step: Step): State
    requires step.g < |s.groups| && HasShares(s.groups[step.g])
  {
    var after := NextGroup(GroupAt(s, step.g), step.event);
    State(s.groups[step.g := after.bags], after.wallet, after.festivals,
          s.used + if step.event.StartFestival? then {step.event.uuid} else {})
  }

  /** Gold that comes into being: a festive bag is not paid for. */
  function Minted(event: Event): int {
    if event.AddBag? && event.uuid != "" then event.amount else 0
  }

  /** Gold that goes away: what the overwritten, expired or removed bag still held. */
  function Lost(g: Group, event: Event): int {
    match event
    case AddBag(promoter, amount, _, uuid, _, _) =>
      if Refused(g, promoter, amount, uuid) then 0 else Held(g.bags, promoter)
    case ExpireFestive => Held(g.bags, FESTIVE_KEY)
    case RemoveFirstFestive =>
      (match FirstFestive(g.bags) case None => 0 case Some(key) => if key == "" then 0 else Held(g.bags, key))
    case _ => 0
  }

  lemma NextGroupAccounts(g: Group, event: Event)
    requires GroupOk(g.bags) && HasShares(g.bags)
    requires event.AddBag? ==> NewBagOk(event.amount, event.num, event.assigner, event.shares)
    ensures GroupOk(NextGroup(g, event).bags)
    ensures Worth(NextGroup(g, event)) == Worth(g) + Minted(event) - Lost(g, event)
  {
    match event
    case AddBag(promoter, amount, num, uuid, assigner, shares) =>
      AddAccounts(g, promoter, amount, num, uuid, assigner, shares);
    case OpenAll(user) => OpenConserves(g, user);
    case SettleBag(user) => SettleConserves(g, user);
    case ExpireFestive => RemoveOk(g.bags, FESTIVE_KEY);
    case RemoveFirstFestive =>
      if FirstFestive(g.bags).Some? {
        RemoveOk(g.bags, FirstFestive(g.bags).value);
      }
    case _ =>
  }

  /** Whose wallet an event may change. */
  predicate Concerns(event: Event, user: Id) {
    match event
    case AddBag(promoter, _, _, _, _, _) => user == promoter
    case OpenAll(opener) => user == opener
    case SettleBag(promoter) => user == promoter
    case _ => false
  }

  /** With the account of all gold this says what the one concerned gets or pays. */
  lemma OthersKeepTheirGold(g: Group, event: Event, user: Id)
    requires HasShares(g.bags) && !Concerns(event, user)
    ensures GoldOf(NextGroup(g, event).wallet, user) == GoldOf(g.wallet, user)
  {
    if event.OpenAll? {
      OpenPaysUser(g.bags, g.wallet, g.festivals, event.user, user);
    }
  }

  function AllUnopened(groups: seq<seq<Bag>>): int {
    if groups == [] then 0 else AllUnopened(groups[..|groups| - 1]) + Unopened(groups[|groups| - 1])
  }

  lemma {:induction false} AllUnopenedUpdate(groups: seq<seq<Bag>>, g: nat, bags: seq<Bag>)
    requires g < |groups|
    ensures AllUnopened(groups[g := bags]) == AllUnopened(groups) - Unopened(groups[g]) + Unopened(bags)
  {
    var init := groups[..|groups| - 1];
    if g == |groups| - 1 {
      assert groups[g := bags][..|groups| - 1] == init;
    } else {
      AllUnopenedUpdate(init, g, bags);
      assert groups[g := bags][..|groups| - 1] == init[g := bags];
    }
  }

  /** All the gold there is, beyond what the accounts were opened with. */
  ghost function AllGold(s: State): int { Earned(s.wallet) + AllUnopened(s.groups) }

  /** Every bag of every group is fair. */
  ghost predicate Inv(s: State) { forall g | 0 <= g < |s.groups| :: GroupOk(s.groups[g]) && HasShares(s.groups[g]) }

  lemma StepAccounts(s: State, step: Step)
    requires Inv(s) && Enabled(s, step)
    ensures Inv(Next(s, step))
    ensures AllGold(Next(s, step)) == AllGold(s) + Minted(step.event) - Lost(GroupAt(s, step.g), step.event)
  {
    var after := NextGroup(GroupAt(s, step.g), step.event);
    NextGroupAccounts(GroupAt(s, step.g), step.event);
    SharesOfGroup(after.bags);
    AllUnopenedUpdate(s.groups, step.g, after.bags);
  }

  /** Every step is enabled where it is taken. */
  ghost predicate ValidRun(s: State, steps: seq<Step>)
    requires Inv(s)
    decreases |steps|
  {
    steps == [] || (Enabled(s, steps[0]) && (StepAccounts(s, steps[0]); ValidRun(Next(s, steps[0]), steps[1..])))
  }

  ghost function Run(s: State, steps: seq<Step>): State
    requires Inv(s) && ValidRun(s, steps)
    decreases |steps|
  {
    if steps == [] then s
    else
      StepAccounts(s, steps[0]);
      Run(Next(s, steps[0]), steps[1..])
  }

  ghost function MintedOver(steps: seq<Step>): int {
    if steps == [] then 0 else Minted(steps[0].event) + MintedOver(steps[1..])
  }

  ghost function LostOver(s: State, steps: seq<Step>): int
    requires Inv(s) && ValidRun(s, steps)
    decreases |steps|
  {
    if steps == [] then 0
    else
      StepAccounts(s, steps[0]);
      Lost(GroupAt(s, steps[0].g), steps[0].event) + LostOver(Next(s, steps[0]), steps[1..])
  }

  /** Main result: over any run the gold in wallets and unopened bags changes only by festive minting and
      by what overwritten, expired and removed bags still held; and every bag stays fair. */
  lemma {:induction false} RunConservesGold(s: State, steps: seq<Step>)
    requires Inv(s) && ValidRun(s, steps)
    ensures Inv(Run(s, steps))
    ensures AllGold(Run(s, steps)) == AllGold(s) + MintedOver(steps) - LostOver(s, steps)
    decreases |steps|
  {
    if steps == [] {
    } else {
      StepAccounts(s, steps[0]);
      RunConservesGold(Next(s, steps[0]), steps[1..]);
    }
  }

  /** What the invariant says of one bag in the dictionary. */
  lemma {:induction false} BagsAreFair(bags: seq<Bag>, id: Id)
    requires GroupOk(bags) && Get(bags, id).Some?
    ensures var bag := Get(bags, id).value;
      && bag.promoter == id && bag.shares != []
      && |bag.shares| + |bag.openers| == Max(1, bag.num) && Sum(bag.shares) + Total(bag.openers) == bag.amount
  {
    if bags[|bags| - 1].promoter != id {
      BagsAreFair(bags[..|bags| - 1], id);
    }
  }

  // ---- A festival pays a user at most once ----

  function GrantsIn(s: State, step: Step, user: Id, uuid: string): nat
    requires step.g < |s.groups| && HasShares(s.groups[step.g])
  {
    if step.event == OpenAll(user) then Grants(s.groups[step.g], s.wallet, s.festivals, user, uuid) else 0
  }

  /** What the user can still get of a festival: nothing once it has been given out and is over or claimed. */
  function Allowance(s: State, user: Id, uuid: string): nat {
    if uuid !in s.used then 1 else Claims(s.festivals, uuid, user)
  }

  /** Only festivals given out are running. */
  predicate Registered(s: State) { s.festivals.Keys <= s.used }

  lemma StepUsesAllowance(s: State, step: Step, user: Id, uuid: string)
    requires Inv(s) && Enabled(s, step) && Registered(s)
    ensures GrantsIn(s, step, user, uuid) + Allowance(Next(s, step), user, uuid) <= Allowance(s, user, uuid)
    ensures Registered(Next(s, step))
  {
    if step.event.OpenAll? {
      GrantUsesClaim(s.groups[step.g], s.wallet, s.festivals, step.event.user, uuid, user);
      FestivalsStay(s.groups[step.g], s.wallet, s.festivals, step.event.user);
    }
  }

  lemma {:induction false} FestivalsStay(bags: seq<Bag>, wallet: map<Id, int>, festivals: Festivals, user: Id)
    requires HasShares(bags)
    ensures OpenBags(bags, wallet, festivals, user).festivals.Keys == festivals.Keys
  {
    if bags == [] {
    } else {
      FestivalsStay(bags[..|bags| - 1], wallet, festivals, user);
    }
  }

  ghost function GrantsOver(s: State, steps: seq<Step>, user: Id, uuid: string): nat
    requires Inv(s) && ValidRun(s, steps)
    decreases |steps|
  {
    if steps == [] then 0
    else
      StepAccounts(s, steps[0]);
      GrantsIn(s, steps[0], user, uuid) + GrantsOver(Next(s, steps[0]), steps[1..], user, uuid)
  }

  /** Main result: over any run and all groups together, a user takes at most one share of a festival. */
  lemma {:induction false} FestivalPaysOnce(s: State, steps: seq<Step>, user: Id, uuid: string)
    requires Inv(s) && ValidRun(s, steps) && Registered(s)
    ensures GrantsOver(s, steps, user, uuid) <= Allowance(s, user, uuid) <= 1
    decreases |steps|
  {
    if steps == [] {
    } else {
      StepAccounts(s, steps[0]);
      StepUsesAllowance(s, steps[0], user, uuid);
      FestivalPaysOnce(Next(s, steps[0]), steps[1..], user, uuid);
    }
  }

  // ---- The objects ----

  class Accounts {
    var gold: map<Id, int>

    constructor ()
      ensures gold == map[]
    {
      gold := map[];
    }

    method AddGold(user: Id, amount: int)
      modifies this
      ensures gold == Credit(old(gold), user, amount)
    {
      var current := STARTING_GOLD;
      if user in gold {
        current := gold[user];
      }
      gold := gold[user := current + amount];
    }
  }

  class FestiveRedBagManage {
    var data: Festivals

    constructor ()
      ensures data == map[]
    {
      data := map[];
    }

    method Add(uuid: string)
      modifies this
      ensures data == old(data)[uuid := {}]
    {
      data := data[uuid := {}];
    }

    method Open(uuid: string, uid: Id)
      modifies this
      ensures data == Claim(old(data), uuid, uid)
    {
      if uuid in data && uid !in data[uuid] {
        data := data[uuid := data[uuid] + {uid}];
      } else if uuid in data {
        assert data[uuid] + {uid} == data[uuid];
        assert data[uuid := data[uuid]] == data;
      }
    }

    method Remove(uuid: string)
      modifies this
      ensures data == old(data) - {uuid}
    {
      data := data - {uuid};
    }
  }

  class GroupRedBag {
    var data: seq<Bag>

    constructor ()
      ensures data == []
    {
      data := [];
    }

    ghost predicate Valid()
      reads this
    {
      GroupOk(data) && HasShares(data)
    }

    function Model(accounts: Accounts, festivals: FestiveRedBagManage): Group
      reads this, accounts, festivals
    {
      Group(data, accounts.gold, festivals.data)
    }

    /** Returns whether the bag was refused; the shares are any fair split the weights and picks give. */
    method AddRedBag(amount: int, num: int, promoterId: Id, festivalUuid: string, assigner: Id,
                     accounts: Accounts, festivals: FestiveRedBagManage, weights: seq<real>, picks: seq<nat>)
      returns (refused: bool, redBagList: seq<int>)
      requires Valid() && (assigner != "" ==> num == 1) && |weights| == Max(0, num)
      requires RandomSplit.Splittable(amount, weights)
      requires RandomSplit.ShareCount(weights) <= |picks| && forall k | 0 <= k < |picks| :: picks[k] <= k
      modifies this, accounts
      ensures Valid()
      ensures refused == Refused(old(Model(accounts, festivals)), promoterId, amount, festivalUuid)
      ensures NewBagOk(amount, num, assigner, redBagList)
      ensures Model(accounts, festivals)
              == Add(old(Model(accounts, festivals)), promoterId, amount, num, festivalUuid, assigner, redBagList)
    {
      redBagList := RandomSplit.RandomRedBag(amount, weights, picks);
      refused := Place(amount, num, promoterId, festivalUuid, assigner, accounts, festivals, redBagList);
    }

    method Place(amount: int, num: int, promoterId: Id, festivalUuid: string, assigner: Id,
                 accounts: Accounts, festivals: FestiveRedBagManage, redBagList: seq<int>)
      returns (refused: bool)
      requires Valid() && NewBagOk(amount, num, assigner, redBagList)
      modifies this, accounts
      ensures Valid()
      ensures refused == Refused(old(Model(accounts, festivals)), promoterId, amount, festivalUuid)
      ensures Model(accounts, festivals)
              == Add(old(Model(accounts, festivals)), promoterId, amount, num, festivalUuid, assigner, redBagList)
    {
      refused := Debit(amount, promoterId, festivalUuid, accounts, festivals);
      if !refused {
        PutNewBag(data, promoterId, amount, num, festivalUuid, assigner, redBagList);
        data := Put(data, Bag(promoterId, amount, num, festivalUuid != "", festivalUuid, assigner, map[], redBagList));
      }
    }

    /** The promoter's account is opened, and debited unless the bag is refused or festive. */
    method Debit(amount: int, promoterId: Id, festivalUuid: string, accounts: Accounts, festivals: FestiveRedBagManage)
      returns (refused: bool)
      modifies accounts
      ensures refused == Refused(old(Model(accounts, festivals)), promoterId, amount, festivalUuid)
      ensures accounts.gold ==
              Credit(old(accounts.gold), promoterId, if refused || festivalUuid != "" then 0 else -amount)
    {
      CreditTwice(accounts.gold, promoterId, -amount);
      accounts.AddGold(promoterId, 0);
      refused := festivalUuid == "" && (amount < 1 || accounts.gold[promoterId] < amount);
      if !refused && festivalUuid == "" {
        accounts.AddGold(promoterId, -amount);
      }
    }

    method Open(user: Id, accounts: Accounts, festivals: FestiveRedBagManage)
      returns (openData: map<Id, int>, settlementList: seq<Id>)
      requires Valid()
      modifies this, accounts, festivals
      ensures Valid()
      ensures var o := OpenBags(old(data), old(accounts.gold), old(festivals.data), user);
        openData == o.given && settlementList == o.settled
      ensures Model(accounts, festivals) == OpenedBy(old(Model(accounts, festivals)), user)
    {
      OpenConserves(Model(accounts, festivals), user);
      SharesOfGroup(OpenedBy(Model(accounts, festivals), user).bags);
      openData, settlementList := TakeShares(user, accounts, festivals);
      Delete(settlementList);
    }

    /** The loop over the bags. */
    method TakeShares(user: Id, accounts: Accounts, festivals: FestiveRedBagManage)
      returns (openData: map<Id, int>, settlementList: seq<Id>)
      requires HasShares(data)
      modifies this, accounts, festivals
      ensures OpenBags(old(data), old(accounts.gold), old(festivals.data), user)
              == Opening(data, accounts.gold, festivals.data, settlementList, openData)
    {
      openData, settlementList := map[], [];
      ghost var was, wallet, running := data, accounts.gold, festivals.data;
      var i := 0;
      while i < |data|
        invariant 0 <= i <= |data| == |was| && data[i..] == was[i..]
        invariant OpenBags(was[..i], wallet, running, user)
                  == Opening(data[..i], accounts.gold, festivals.data, settlementList, openData)
      {
        OpenBagsStep(was, i, wallet, running, user);
        assert data[i] == data[i..][0] == was[i];
        var bag, taken, finished := TakeShare(data[i], user, accounts, festivals, data[..i], settlementList, openData);
        data := data[i := bag];
        if taken.Some? {
          openData := openData[bag.promoter := taken.value];
        }
        if finished {
          settlementList := settlementList + [bag.promoter];
        }
        i := i + 1;
      }
      assert was[..i] == was && data[..i] == data;
    }

    /** One round of the loop: the bag afterwards, the share taken from it, and whether this call finished it. */
    method TakeShare(bag: Bag, user: Id, accounts: Accounts, festivals: FestiveRedBagManage,
                     ghost before: seq<Bag>, ghost settled: seq<Id>, ghost given: map<Id, int>)
      returns (after: Bag, taken: Option<int>, finished: bool)
      requires bag.shares != []
      modifies accounts, festivals
      ensures OpenBag(Opening(before, old(accounts.gold), old(festivals.data), settled, given), bag, user)
              == Opening(before + [after], accounts.gold, festivals.data,
                         if finished then settled + [after.promoter] else settled,
                         if taken.Some? then given[after.promoter := taken.value] else given)
    {
      after, taken, finished := bag, None, false;
      if |bag.openers| < bag.num {
        if bag.festival && bag.uuid != "" {
          if !(bag.uuid in festivals.data && user !in festivals.data[bag.uuid]) {
            return;
          }
          festivals.Open(bag.uuid, user);
        }
        var isOpen := user !in bag.openers;
        if bag.assigner != "" {
          isOpen := bag.assigner == user;
        }
        if isOpen {
          var randomAmount := bag.shares[|bag.shares| - 1];
          after := after.(shares := bag.shares[..|bag.shares| - 1]);
          accounts.AddGold(user, randomAmount);
          after := after.(openers := bag.openers[user := randomAmount]);
          taken := Some(randomAmount);
          finished := after.num == |after.openers|;
        }
      }
    }

    /** The finished bags leave the dictionary. */
    method Delete(settlementList: seq<Id>)
      modifies this
      ensures data == RemoveAll(old(data), settlementList)
    {
      ghost var was := data;
      var k := 0;
      while k < |settlementList|
        invariant 0 <= k <= |settlementList| && data == RemoveAll(was, settlementList[..k])
      {
        assert settlementList[..k + 1][..k] == settlementList[..k];
        data := Remove(data, settlementList[k]);
        k := k + 1;
      }
      assert settlementList[..k] == settlementList;
    }

    method Settlement(user: Id, accounts: Accounts, festivals: FestiveRedBagManage) returns (amount: int)
      requires Valid()
      modifies this, accounts, festivals
      ensures Valid() && amount == Held(old(data), user)
      ensures Model(accounts, festivals) == Settle(old(Model(accounts, festivals)), user)
    {
      SettleConserves(Model(accounts, festivals), user);
      SharesOfGroup(Settle(Model(accounts, festivals), user).bags);
      amount := 0;
      var found := Get(data, user);
      if found.Some? {
        data := Remove(data, user);
        if found.value.festival && found.value.uuid != "" {
          festivals.Remove(found.value.uuid);
        }
        amount := Sum(found.value.shares);
        if amount != 0 {
          accounts.AddGold(user, amount);
        }
      }
    }

    method FestiveRedBagExpire(accounts: Accounts, festivals: FestiveRedBagManage)
      requires Valid()
      modifies this
      ensures Valid() && Model(accounts, festivals) == Expire(old(Model(accounts, festivals)))
    {
      RemoveOk(data, FESTIVE_KEY);
      data := Remove(data, FESTIVE_KEY);
      SharesOfGroup(data);
    }

    method RemoveFestiveRedBag(accounts: Accounts, festivals: FestiveRedBagManage)
      requires Valid()
      modifies this
      ensures Valid() && Model(accounts, festivals) == RemoveFestive(old(Model(accounts, festivals)))
    {
      var key := FirstFestive(data);
      if key.Some? && key.value != "" {
        RemoveOk(data, key.value);
        data := Remove(data, key.value);
        SharesOfGroup(data);
      }
    }
  }

  lemma CreditTwice(wallet: map<Id, int>, id: Id, gold: int)
    ensures Credit(Credit(wallet, id, 0), id, gold) == Credit(wallet, id, gold)
  {
  }

  lemma OpenBagsStep(bags: seq<Bag>, i: nat, wallet: map<Id, int>, festivals: Festivals, user: Id)
    requires HasShares(bags) && i < |bags|
    ensures OpenBags(bags[..i + 1], wallet, festivals, user)
            == OpenBag(OpenBags(bags[..i], wallet, festivals, user), bags[i], user)
  {
    assert bags[..i + 1][..i] == bags[..i];
  }
}
