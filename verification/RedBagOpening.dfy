/** Opening a red bag while others open it (bocchi/builtin_plugins/gold_redbag/config.py:235-258). An opening is
    suspended after it has taken its share, until it has paid it out, and then records its opener; the bag is one of
    a group, and each stretch between suspensions is one step. */
module RedBagOpening {
  import opened Common
  import opened Gold
  import opened RedBags

  /** A share that was taken, and whether it has been paid out. */
  datatype Take = Take(user: Id, share: int, paid: bool)

  /** `taking` are the openings under way, `recorded` those that are over, in order. */
  datatype State = State(bag: Bag, festivals: Festivals, wallet: map<Id, int>, taking: seq<Take>, recorded: seq<Take>)

  datatype Event =
    | Open(user: Id)
    | Pay(i: nat)
    | Record(i: nat)
    | ClaimElsewhere(user: Id)
    | EndFestival

  predicate Enabled(s: State, ev: Event) {
    match ev
    case Pay(i) => i < |s.taking| && !s.taking[i].paid
    case Record(i) => i < |s.taking| && s.taking[i].paid
    case _ => true
  }

  /** The user is let in, but every share has been taken: list.pop raises. */
  predicate Raises(s: State, user: Id) { Takes(s.bag, user, s.festivals) && s.bag.shares == [] }

  /** The user gets a share. */
  predicate Gets(s: State, user: Id) { Takes(s.bag, user, s.festivals) && s.bag.shares != [] }

  function Opening(s: State, user: Id): State {
    if !Admits(s.bag, user, s.festivals) then s
    else
      var t := if Festive(s.bag) then s.(festivals := Claim(s.festivals, s.bag.uuid, user)) else s;
      if !Gets(s, user) then t
      else
        var n := |s.bag.shares| - 1;
        t.(bag := s.bag.(shares := s.bag.shares[..n]), taking := s.taking + [Take(user, s.bag.shares[n], false)])
  }

  function Without(taking: seq<Take>, i: nat): seq<Take>
    requires i < |taking|
  {
    taking[..i] + taking[i + 1..]
  }

  function Next(s: State, ev: Event): State
    requires Enabled(s, ev)
  {
    match ev
    case Open(user) => Opening(s, user)
    case Pay(i) =>
      s.(wallet := Credit(s.wallet, s.taking[i].user, s.taking[i].share),
         taking := s.taking[i := s.taking[i].(paid := true)])
    case Record(i) =>
      s.(bag := s.bag.(openers := s.bag.openers[s.taking[i].user := s.taking[i].share]),
         taking := Without(s.taking, i), recorded := s.recorded + [s.taking[i]])
    case ClaimElsewhere(user) => s.(festivals := Claim(s.festivals, s.bag.uuid, user))
    case EndFestival => s.(festivals := s.festivals - {s.bag.uuid})
  }

  // ---- Who has taken how often ----

  function Times(takes: seq<Take>, user: Id): nat {
    if takes == [] then 0
    else Times(takes[..|takes| - 1], user) + if takes[|takes| - 1].user == user then 1 else 0
  }

  /** How many shares the user has taken. */
  function Taken(s: State, user: Id): nat { Times(s.taking, user) + Times(s.recorded, user) }

  ghost predicate Once(takes: seq<Take>) { forall u :: Times(takes, u) <= 1 }

  /** Nobody has more than one share. */
  ghost predicate OnceEach(s: State) { forall u :: Taken(s, u) <= 1 }

  lemma {:induction false} TimesConcat(a: seq<Take>, b: seq<Take>, user: Id)
    ensures Times(a + b, user) == Times(a, user) + Times(b, user)
  {
    if b == [] {
      assert a + b == a;
    } else {
      assert (a + b)[..|a + b| - 1] == a + b[..|b| - 1];
      TimesConcat(a, b[..|b| - 1], user);
    }
  }

  lemma TimesOne(t: Take, user: Id)
    ensures Times([t], user) == if t.user == user then 1 else 0
  {
    assert [t][..0] == [];
  }

  lemma TimesBetween(a: seq<Take>, t: Take, b: seq<Take>, user: Id)
    ensures Times(a + [t] + b, user) == Times(a + b, user) + if t.user == user then 1 else 0
  {
    TimesConcat(a + [t], b, user);
    TimesConcat(a, [t], user);
    TimesConcat(a, b, user);
    TimesOne(t, user);
  }

  lemma Around(taking: seq<Take>, i: nat, t: Take)
    requires i < |taking|
    ensures taking == taking[..i] + [taking[i]] + taking[i + 1..]
    ensures taking[i := t] == taking[..i] + [t] + taking[i + 1..]
  {
  }

  lemma TimesAt(taking: seq<Take>, i: nat, t: Take, user: Id)
    requires i < |taking| && t.user == taking[i].user
    ensures Times(taking, user) == Times(Without(taking, i), user) + if t.user == user then 1 else 0
    ensures Times(taking[i := t], user) == Times(taking, user)
  {
    Around(taking, i, t);
    TimesBetween(taking[..i], taking[i], taking[i + 1..], user);
    TimesBetween(taking[..i], t, taking[i + 1..], user);
  }

  /** Only a share that is got changes who has taken how many. */
  lemma TakenNext(s: State, ev: Event, user: Id)
    requires Enabled(s, ev)
    ensures Taken(Next(s, ev), user) ==
            Taken(s, user) + if ev.Open? && ev.user == user && Gets(s, user) then 1 else 0
  {
    match ev
    case Open(opener) =>
      if Gets(s, opener) {
        var t := Take(opener, s.bag.shares[|s.bag.shares| - 1], false);
        TimesOne(t, user);
        TimesConcat(s.taking, [t], user);
      }
    case Pay(i) => TimesAt(s.taking, i, s.taking[i].(paid := true), user);
    case Record(i) =>
      TimesAt(s.taking, i, s.taking[i], user);
      TimesOne(s.taking[i], user);
      TimesConcat(s.recorded, [s.taking[i]], user);
    case _ =>
  }

  // ---- The invariant ----

  /** Every share is in the bag, under way or recorded, one to a person if the bag is meant for one. */
  predicate SharesCount(s: State) {
    && |s.bag.shares| + |s.taking| + |s.recorded| == Max(1, s.bag.num)
    && (s.bag.assigner != "" ==> s.bag.num == 1)
    && (s.bag.num < 1 ==> s.taking == [] && s.recorded == [])
  }

  /** The openers are those recorded; there are as many as records only if none is recorded twice. */
  ghost predicate OpenersCount(s: State) {
    && (forall u :: u in s.bag.openers <==> 0 < Times(s.recorded, u))
    && |s.bag.openers| <= |s.recorded|
    && (|s.bag.openers| == |s.recorded| <==> Once(s.recorded))
  }

  ghost predicate Inv(s: State) { SharesCount(s) && OpenersCount(s) }

  lemma StepKeepsShares(s: State, ev: Event)
    requires SharesCount(s) && Enabled(s, ev)
    ensures SharesCount(Next(s, ev))
  {
  }

  lemma StepKeepsOpeners(s: State, ev: Event)
    requires OpenersCount(s) && Enabled(s, ev)
    ensures OpenersCount(Next(s, ev))
  {
    if ev.Record? {
      OneMoreOpener(s.bag.openers, s.recorded, s.taking[ev.i]);
    }
  }

  lemma OneMoreOpener(openers: map<Id, int>, recorded: seq<Take>, t: Take)
    requires (forall u :: u in openers <==> 0 < Times(recorded, u)) && |openers| <= |recorded|
    requires |openers| == |recorded| <==> Once(recorded)
    ensures var after, takes := openers[t.user := t.share], recorded + [t];
      && (forall u :: u in after <==> 0 < Times(takes, u))
      && |after| <= |takes| && (|after| == |takes| <==> Once(takes))
  {
    var after, takes := openers[t.user := t.share], recorded + [t];
    forall u ensures Times(takes, u) == Times(recorded, u) + if t.user == u then 1 else 0 {
      TimesOne(t, u);
      TimesConcat(recorded, [t], u);
    }
    if t.user in openers {
      assert after.Keys == openers.Keys;
      assert Times(takes, t.user) > 1;
    } else {
      assert after.Keys == openers.Keys + {t.user};
      OneMoreOnce(recorded, takes, t.user);
    }
  }

  lemma OneMoreOnce(recorded: seq<Take>, takes: seq<Take>, user: Id)
    requires Times(recorded, user) == 0
    requires forall u :: Times(takes, u) == Times(recorded, u) + if user == u then 1 else 0
    ensures Once(takes) <==> Once(recorded)
  {
    if Once(takes) {
      assert forall u :: Times(recorded, u) <= Times(takes, u);
    }
  }

  lemma StepKeepsInv(s: State, ev: Event)
    requires Inv(s) && Enabled(s, ev)
    ensures Inv(Next(s, ev))
  {
    StepKeepsShares(s, ev);
    StepKeepsOpeners(s, ev);
  }

  ghost predicate ValidRun(s: State, evs: seq<Event>)
    decreases |evs|
  {
    evs == [] || (Enabled(s, evs[0]) && ValidRun(Next(s, evs[0]), evs[1..]))
  }

  ghost function Run(s: State, evs: seq<Event>): State
    requires ValidRun(s, evs)
    decreases |evs|
  {
    if evs == [] then s else Run(Next(s, evs[0]), evs[1..])
  }

  // ---- Gold ----

  function Unpaid(taking: seq<Take>): int {
    if taking == [] then 0
    else Unpaid(taking[..|taking| - 1]) + if taking[|taking| - 1].paid then 0 else taking[|taking| - 1].share
  }

  ghost function Worth(s: State): int { Earned(s.wallet) + Unpaid(s.taking) + Sum(s.bag.shares) }

  lemma {:induction false} UnpaidConcat(a: seq<Take>, b: seq<Take>)
    ensures Unpaid(a + b) == Unpaid(a) + Unpaid(b)
  {
    if b == [] {
      assert a + b == a;
    } else {
      assert (a + b)[..|a + b| - 1] == a + b[..|b| - 1];
      UnpaidConcat(a, b[..|b| - 1]);
    }
  }

  lemma UnpaidOne(t: Take)
    ensures Unpaid([t]) == if t.paid then 0 else t.share
  {
    assert [t][..0] == [];
  }

  lemma UnpaidBetween(a: seq<Take>, t: Take, b: seq<Take>)
    ensures Unpaid(a + [t] + b) == Unpaid(a + b) + if t.paid then 0 else t.share
  {
    UnpaidConcat(a + [t], b);
    UnpaidConcat(a, [t]);
    UnpaidConcat(a, b);
    UnpaidOne(t);
  }

  lemma UnpaidAt(taking: seq<Take>, i: nat, t: Take)
    requires i < |taking|
    ensures Unpaid(taking) == Unpaid(Without(taking, i)) + if taking[i].paid then 0 else taking[i].share
    ensures Unpaid(taking[i := t]) == Unpaid(Without(taking, i)) + if t.paid then 0 else t.share
  {
    Around(taking, i, t);
    UnpaidBetween(taking[..i], taking[i], taking[i + 1..]);
    UnpaidBetween(taking[..i], t, taking[i + 1..]);
  }

  lemma StepKeepsWorth(s: State, ev: Event)
    requires Enabled(s, ev)
    ensures Worth(Next(s, ev)) == Worth(s)
  {
    match ev
    case Open(user) =>
      if Gets(s, user) {
        var t := Take(user, s.bag.shares[|s.bag.shares| - 1], false);
        UnpaidOne(t);
        UnpaidConcat(s.taking, [t]);
      }
    case Pay(i) =>
      UnpaidAt(s.taking, i, s.taking[i].(paid := true));
      EarnedCredit(s.wallet, s.taking[i].user, s.taking[i].share);
    case Record(i) => UnpaidAt(s.taking, i, s.taking[i]);
    case _ =>
  }

  /** Main result: however openings overlap, no gold of the bag is lost or paid twice, and every share is in the
      bag, under way or recorded. */
  lemma {:induction false} OverlapsConserveGold(s: State, evs: seq<Event>)
    requires Inv(s) && ValidRun(s, evs)
    ensures Inv(Run(s, evs)) && Worth(Run(s, evs)) == Worth(s)
    decreases |evs|
  {
    if evs == [] {
    } else {
      StepKeepsInv(s, evs[0]);
      StepKeepsWorth(s, evs[0]);
      OverlapsConserveGold(Next(s, evs[0]), evs[1..]);
    }
  }

  // ---- One share each ----

  /** The user gets a share while an earlier one of theirs is under way. */
  predicate Again(s: State, ev: Event) { ev.Open? && Gets(s, ev.user) && 0 < Times(s.taking, ev.user) }

  lemma StepOnceIff(s: State, ev: Event)
    requires Inv(s) && Enabled(s, ev)
    ensures OnceEach(Next(s, ev)) <==> OnceEach(s) && !Again(s, ev)
  {
    var t := Next(s, ev);
    forall u ensures Taken(t, u) == Taken(s, u) + if ev.Open? && ev.user == u && Gets(s, u) then 1 else 0 {
      TakenNext(s, ev, u);
    }
    if ev.Open? && Gets(s, ev.user) {
      NotRecorded(s, ev.user);
      OneMoreTaken(s, t, ev.user);
    }
  }

  lemma OneMoreTaken(s: State, t: State, user: Id)
    requires forall u :: Taken(t, u) == Taken(s, u) + if user == u then 1 else 0
    ensures OnceEach(t) <==> OnceEach(s) && Taken(s, user) == 0
  {
    if OnceEach(t) {
      assert forall u :: Taken(s, u) <= Taken(t, u);
    }
  }

  /** Who gets a share is not recorded yet. */
  lemma NotRecorded(s: State, user: Id)
    requires Inv(s) && Gets(s, user)
    ensures Times(s.recorded, user) == 0
  {
    if s.bag.assigner != "" {
      assert s.recorded == [];
    }
  }

  ghost predicate NeverAgain(s: State, evs: seq<Event>)
    requires ValidRun(s, evs)
    decreases |evs|
  {
    evs == [] || (!Again(s, evs[0]) && NeverAgain(Next(s, evs[0]), evs[1..]))
  }

  /** Main result: over any run nobody takes two shares exactly when nobody opens the bag again while an opening of
      theirs is under way. */
  lemma {:induction false} OnceEachIff(s: State, evs: seq<Event>)
    requires Inv(s) && ValidRun(s, evs)
    ensures OnceEach(Run(s, evs)) <==> OnceEach(s) && NeverAgain(s, evs)
    decreases |evs|
  {
    if evs == [] {
    } else {
      StepKeepsInv(s, evs[0]);
      StepOnceIff(s, evs[0]);
      OnceEachIff(Next(s, evs[0]), evs[1..]);
    }
  }

  /** In a festive bag whoever has taken a share cannot claim one any more. */
  ghost predicate AllClaimed(s: State) {
    forall u | 0 < Taken(s, u) :: !Unclaimed(s.festivals, s.bag.uuid, u)
  }

  lemma StepKeepsClaimed(s: State, ev: Event)
    requires Festive(s.bag) && AllClaimed(s) && Enabled(s, ev)
    ensures Festive(Next(s, ev).bag) && AllClaimed(Next(s, ev)) && !Again(s, ev)
  {
    var t := Next(s, ev);
    forall u ensures Taken(t, u) == Taken(s, u) + if ev.Open? && ev.user == u && Gets(s, u) then 1 else 0 {
      TakenNext(s, ev, u);
    }
  }

  /** Main result: from a festive bag nobody takes two shares, however openings overlap, as the claim is marked before
      the share is taken. */
  lemma {:induction false} FestiveOnceEach(s: State, evs: seq<Event>)
    requires Inv(s) && OnceEach(s) && Festive(s.bag) && AllClaimed(s) && ValidRun(s, evs)
    ensures OnceEach(Run(s, evs))
    decreases |evs|
  {
    if evs == [] {
    } else {
      StepKeepsInv(s, evs[0]);
      StepOnceIff(s, evs[0]);
      StepKeepsClaimed(s, evs[0]);
      FestiveOnceEach(Next(s, evs[0]), evs[1..]);
    }
  }

  // ---- The end of the bag ----

  lemma OnceParts(s: State)
    requires OnceEach(s)
    ensures Once(s.recorded)
  {
    assert forall u :: Times(s.recorded, u) <= Taken(s, u);
  }

  /** Who may open the bag, its shares aside. */
  predicate Wants(s: State, user: Id) {
    && (Festive(s.bag) ==> Unclaimed(s.festivals, s.bag.uuid, user))
    && if s.bag.assigner != "" then s.bag.assigner == user else user !in s.bag.openers
  }

  /** Main result: while nobody has two shares, an opening raises exactly when it is let in and all the shares have
      been taken, but one of these openings is still under way. */
  lemma RaisesIff(s: State, user: Id)
    requires Inv(s) && OnceEach(s)
    ensures Raises(s, user) <==> Wants(s, user) && s.bag.shares == [] && s.taking != []
  {
    OnceParts(s);
  }

  /** Main result: when all the shares are recorded the bag is finished exactly when nobody took two; otherwise
      it stays, and raises for whoever wants a share. */
  lemma FinishedIff(s: State, user: Id)
    requires Inv(s) && s.bag.shares == [] && s.taking == []
    ensures s.bag.num == |s.bag.openers| <==> OnceEach(s)
    ensures !OnceEach(s) ==> (Raises(s, user) <==> Wants(s, user))
  {
    assert forall u :: Taken(s, u) == Times(s.recorded, u);
  }

  /** An opening that no other overlaps is the opening in one step. */
  lemma AloneIsOneStep(s: State, user: Id)
    requires Inv(s) && OnceEach(s) && s.taking == []
    ensures !Raises(s, user)
    ensures Gets(s, user) ==>
      var t := Next(Next(Next(s, Open(user)), Pay(0)), Record(0));
      var o := OpenBag(RedBags.Opening([], s.wallet, s.festivals, [], map[]), s.bag, user);
      && [t.bag] == o.bags && t.wallet == o.wallet && t.festivals == o.festivals && t.taking == []
      && (t.bag.num == |t.bag.openers| <==> o.settled != [])
  {
    RaisesIff(s, user);
  }

  // ---- The bag ----

  /** One method for each stretch between suspensions. */
  class SharedBag {
    var bag: Bag
    var festivals: Festivals
    var wallet: map<Id, int>
    var taking: seq<Take>
    ghost var recorded: seq<Take>

    ghost function Model(): State
      reads this
    {
      State(bag, festivals, wallet, taking, recorded)
    }

    constructor (stored: Bag, running: Festivals, accounts: map<Id, int>)
      ensures Model() == State(stored, running, accounts, [], [])
    {
      bag, festivals, wallet, taking, recorded := stored, running, accounts, [], [];
    }

    /** Up to the first suspension; the opening raises when it is let in and no share is left. */
    method Begin(user: Id) returns (taken: bool, raised: bool)
      modifies this`bag, this`festivals, this`taking
      ensures Model() == Next(old(Model()), Open(user))
      ensures taken == Gets(old(Model()), user) && raised == Raises(old(Model()), user)
    {
      taken, raised := false, false;
      if |bag.openers| >= bag.num {
        return;
      }
      if bag.festival && bag.uuid != "" {
        if !(bag.uuid in festivals && user !in festivals[bag.uuid]) {
          return;
        }
        festivals := festivals[bag.uuid := festivals[bag.uuid] + {user}];
      }
      var isOpen := user !in bag.openers;
      if bag.assigner != "" {
        isOpen := bag.assigner == user;
      }
      if !isOpen {
        return;
      }
      if bag.shares == [] {
        raised := true;
        return;
      }
      var n := |bag.shares| - 1;
      taking := taking + [Take(user, bag.shares[n], false)];
      bag := bag.(shares := bag.shares[..n]);
      taken := true;
    }

    /** The share is added to the wallet. */
    method PayOut(i: nat)
      requires Enabled(Model(), Pay(i))
      modifies this`wallet, this`taking
      ensures Model() == Next(old(Model()), Pay(i))
    {
      wallet := Credit(wallet, taking[i].user, taking[i].share);
      taking := taking[i := taking[i].(paid := true)];
    }

    /** The opener is recorded; returns whether the bag is finished. */
    method Finish(i: nat) returns (finished: bool)
      requires Enabled(Model(), Record(i))
      modifies this`bag, this`taking, this`recorded
      ensures Model() == Next(old(Model()), Record(i)) && finished == (bag.num == |bag.openers|)
    {
      bag := bag.(openers := bag.openers[taking[i].user := taking[i].share]);
      recorded := recorded + [taking[i]];
      taking := Without(taking, i);
      finished := bag.num == |bag.openers|;
    }
  }

  // ---- Failing interleavings ----

  function Fresh(num: int, shares: seq<int>): State {
    State(Bag("p", Sum(shares), num, false, "", "", map[], shares), map[], map[], [], [])
  }

  lemma FreshInv(num: int, shares: seq<int>)
    requires |shares| == Max(1, num)
    ensures Inv(Fresh(num, shares)) && OnceEach(Fresh(num, shares))
  {
  }

  /** Two people open the last share: the second one's opening raises. */
  lemma LastShareRaises(share: int, first: Id, second: Id)
    requires first != second
    ensures var s := Next(Fresh(1, [share]), Open(first)); Raises(s, second)
  {
  }

  /** Opening it twice at once, one person gets two shares of any bag that is neither festive nor meant for one and
      has two left. */
  lemma SamePersonTwice(s: State, user: Id)
    requires Inv(s) && Gets(s, user) && |s.bag.shares| >= 2 && !Festive(s.bag) && s.bag.assigner == ""
    ensures var t := Next(Next(s, Open(user)), Open(user)); Inv(t) && Taken(t, user) == Taken(s, user) + 2
  {
    var u := Next(s, Open(user));
    TakenNext(s, Open(user), user);
    TakenNext(u, Open(user), user);
    StepKeepsInv(s, Open(user));
    StepKeepsInv(u, Open(user));
  }

  /** Such as a new one of two shares. */
  lemma NewBagTwice(a: int, b: int, user: Id)
    ensures var s := Fresh(2, [a, b]); Inv(s) && Gets(s, user) && Again(Next(s, Open(user)), Open(user))
  {
    FreshInv(2, [a, b]);
    var s := Fresh(2, [a, b]);
    TimesOne(Take(user, b, false), user);
    assert s.taking + [Take(user, b, false)] == [Take(user, b, false)];
  }

  /** After that, whatever follows, the bag is never finished: once all its shares are recorded every opening that
      is let in raises. */
  lemma TwiceTakenStays(s: State, evs: seq<Event>, user: Id)
    requires Inv(s) && !OnceEach(s) && ValidRun(s, evs)
    requires Run(s, evs).bag.shares == [] && Run(s, evs).taking == []
    ensures var t := Run(s, evs); t.bag.num != |t.bag.openers| && (Raises(t, user) <==> Wants(t, user))
  {
    OverlapsConserveGold(s, evs);
    OnceEachIff(s, evs);
    FinishedIff(Run(s, evs), user);
  }
}
