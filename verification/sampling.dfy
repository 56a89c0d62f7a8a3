/** pcitop's sampling of the displayed bridges: the commands it sends to the adapters'
    driver and the utilizations it prints. */
module Sampling {
  import opened Adapters

  datatype Option<T> = None | Some(value: T)

  // ----- readings

  const WIDTH := 0x1_0000_0000_0000_0000

  /** unsigned long */
  type Word = x: int | 0 <= x < WIDTH

  function Minus(x: Word, y: Word): Word {
    (x - y) % WIDTH
  }

  datatype Reading = Reading(timer: Word, counter: Word)

  function Before(rs: seq<Reading>, i: nat): Reading
    requires i < |rs|
  {
    if i == 0 then Reading(0, 0) else rs[i - 1]
  }

  predicate RisesAt(rs: seq<Reading>, i: nat)
    requires i < |rs|
  {
    Before(rs, i).timer < rs[i].timer && Before(rs, i).counter <= rs[i].counter
  }

  /** The timer runs and the counter does not run backwards, both from zero. */
  predicate Rising(rs: seq<Reading>) {
    forall i | 0 <= i < |rs| :: RisesAt(rs, i)
  }

  function Utilization(inUse: bool, before: Reading, now: Reading): real
    requires before.timer < now.timer
  {
    if inUse then (now.counter - before.counter) as real * 100.0 / (now.timer - before.timer) as real else 0.0
  }

  function UtilizationAt(inUse: bool, rs: seq<Reading>, i: nat): real
    requires i < |rs| && Rising(rs)
  {
    assert RisesAt(rs, i);
    Utilization(inUse, Before(rs, i), rs[i])
  }

  function Utilizations(inUse: bool, rs: seq<Reading>): (us: seq<real>)
    requires Rising(rs)
    ensures |us| == |rs|
  {
    seq(|rs|, i requires 0 <= i < |rs| => UtilizationAt(inUse, rs, i))
  }

  /** What is printed for a sample: no number if the timer stands still. */
  function Shown(inUse: bool, before: Reading, now: Reading): Option<real> {
    if !inUse then Some(0.0)
    else if Minus(now.timer, before.timer) == 0 then None
    else Some(Minus(now.counter, before.counter) as real * 100.0 / Minus(now.timer, before.timer) as real)
  }

  function Printouts(inUse: bool, rs: seq<Reading>): (os: seq<Option<real>>)
    ensures |os| == |rs|
  {
    seq(|rs|, i requires 0 <= i < |rs| => Shown(inUse, Before(rs, i), rs[i]))
  }

  /** As long as the readings rise the subtraction of words is that of numbers. */
  lemma RisingShown(inUse: bool, rs: seq<Reading>, i: nat)
    requires Rising(rs) && i < |rs|
    ensures Printouts(inUse, rs)[i] == Some(Utilizations(inUse, rs)[i])
  {
    assert RisesAt(rs, i);
  }

  // ----- the mean

  /** Every utilization times the time it was measured over. */
  function Weighted(inUse: bool, rs: seq<Reading>): real
    requires Rising(rs)
  {
    if rs == [] then 0.0
    else
      var last := |rs| - 1;
      assert forall i | 0 <= i < last :: RisesAt(rs, i) ==> RisesAt(rs[..last], i);
      Weighted(inUse, rs[..last])
      + UtilizationAt(inUse, rs, last) * (rs[last].timer - Before(rs, last).timer) as real
  }

  lemma PrefixRising(rs: seq<Reading>, n: nat)
    requires Rising(rs) && n <= |rs|
    ensures Rising(rs[..n])
  {
    forall i | 0 <= i < n ensures RisesAt(rs[..n], i) {
      assert RisesAt(rs, i);
    }
  }

  lemma Quotient(x: real, d: real)
    requires d > 0.0
    ensures x / d * d == x
  {
  }

  lemma Between(lo: real, u: real, hi: real, d: real)
    requires lo <= u <= hi && d > 0.0
    ensures lo * d <= u * d <= hi * d
  {
  }

  lemma {:induction false} WeightedTelescopes(rs: seq<Reading>)
    requires Rising(rs) && rs != []
    ensures Weighted(true, rs) == rs[|rs| - 1].counter as real * 100.0
  {
    var last := |rs| - 1;
    assert RisesAt(rs, last);
    PrefixRising(rs, last);
    if last > 0 {
      WeightedTelescopes(rs[..last]);
    }
    Quotient((rs[last].counter - Before(rs, last).counter) as real * 100.0, (rs[last].timer - Before(rs, last).timer) as real);
  }

  lemma {:induction false} WeightedUnused(rs: seq<Reading>)
    requires Rising(rs)
    ensures Weighted(false, rs) == 0.0
  {
    if rs != [] {
      PrefixRising(rs, |rs| - 1);
      WeightedUnused(rs[..|rs| - 1]);
    }
  }

  predicate Bounds(us: seq<real>, lo: real, hi: real) {
    forall i | 0 <= i < |us| :: lo <= us[i] <= hi
  }

  lemma BoundsLast(inUse: bool, rs: seq<Reading>, lo: real, hi: real)
    requires Rising(rs) && rs != [] && Bounds(Utilizations(inUse, rs), lo, hi)
    ensures var last := |rs| - 1;
      && Rising(rs[..last])
      && Bounds(Utilizations(inUse, rs[..last]), lo, hi)
      && lo <= UtilizationAt(inUse, rs, last) <= hi
      && Before(rs, last).timer < rs[last].timer
  {
    hide Utilization;
    var last := |rs| - 1;
    PrefixRising(rs, last);
    assert RisesAt(rs, last);
    assert Utilizations(inUse, rs)[last] == UtilizationAt(inUse, rs, last);
    forall i | 0 <= i < last ensures lo <= Utilizations(inUse, rs[..last])[i] <= hi {
      assert Utilizations(inUse, rs[..last])[i] == Utilizations(inUse, rs)[i];
    }
  }

  lemma {:induction false} WeightedBetween(inUse: bool, rs: seq<Reading>, lo: real, hi: real)
    requires Rising(rs) && rs != [] && Bounds(Utilizations(inUse, rs), lo, hi)
    ensures lo * rs[|rs| - 1].timer as real <= Weighted(inUse, rs) <= hi * rs[|rs| - 1].timer as real
  {
    hide Utilization, UtilizationAt, Utilizations, Bounds, Rising;
    var last := |rs| - 1;
    BoundsLast(inUse, rs, lo, hi);
    var u := UtilizationAt(inUse, rs, last);
    var before := Before(rs, last).timer as real;
    if last > 0 {
      WeightedBetween(inUse, rs[..last], lo, hi);
      assert rs[..last][last - 1] == Before(rs, last);
    } else {
      assert rs[..last] == [] && before == 0.0;
    }
    Combined(lo, u, hi, rs[last].timer as real, before, (rs[last].timer - Before(rs, last).timer) as real,
             Weighted(inUse, rs[..last]));
  }

  lemma Combined(lo: real, u: real, hi: real, t: real, y: real, d: real, w: real)
    requires lo <= u <= hi && t == y + d && d > 0.0 && lo * y <= w <= hi * y
    ensures lo * t <= w + u * d <= hi * t
  {
    Between(lo, u, hi, d);
    Distributed(lo, t, y, d);
    Distributed(hi, t, y, d);
  }

  lemma Distributed(x: real, t: real, y: real, d: real)
    requires t == y + d
    ensures x * t == x * y + x * d
  {
  }

  /** What is printed in the end, from the last reading alone: nothing if no time passed. */
  function Average(inUse: bool, last: Reading): Option<real> {
    if !inUse then Some(0.0)
    else if last.timer == 0 then None
    else Some(last.counter as real * 100.0 / last.timer as real)
  }

  /** The average is the mean of the utilizations weighted by time, and so lies between them. */
  lemma AverageIsMean(inUse: bool, rs: seq<Reading>)
    requires Rising(rs) && rs != []
    ensures var last := rs[|rs| - 1];
      && last.timer > 0
      && Average(inUse, last).Some?
      && var average := Average(inUse, last).value;
        && average * last.timer as real == Weighted(inUse, rs)
        && forall lo, hi | Bounds(Utilizations(inUse, rs), lo, hi) :: lo <= average <= hi
  {
    hide Utilization, UtilizationAt, Utilizations, Bounds, Weighted;
    var last := rs[|rs| - 1];
    assert RisesAt(rs, |rs| - 1);
    var t := last.timer as real;
    AverageIsWeighted(inUse, rs);
    var average := Average(inUse, last).value;
    forall lo, hi | Bounds(Utilizations(inUse, rs), lo, hi) ensures lo <= average <= hi {
      WeightedBetween(inUse, rs, lo, hi);
      Cancelled(lo, average, t);
      Cancelled(average, hi, t);
    }
  }

  lemma AverageIsWeighted(inUse: bool, rs: seq<Reading>)
    requires Rising(rs) && rs != []
    requires rs[|rs| - 1].timer > 0
    ensures Average(inUse, rs[|rs| - 1]).value * rs[|rs| - 1].timer as real == Weighted(inUse, rs)
  {
    hide Weighted;
    if inUse {
      WeightedTelescopes(rs);
      Quotient(rs[|rs| - 1].counter as real * 100.0, rs[|rs| - 1].timer as real);
    } else {
      WeightedUnused(rs);
    }
  }

  lemma Cancelled(x: real, y: real, d: real)
    requires d > 0.0 && x * d <= y * d
    ensures x <= y
  {
  }

  // ----- the commands

  /** What an adapter's two registers hold when a sleep ends. */
  datatype Sleep = Sleep(timer: bv64, counter: bv64)

  /** Everything that happens to the adapter over some samples. */
  ghost function Schedule(sleeps: seq<Sleep>): seq<Event> {
    if sleeps == [] then [Store("init"), Store("reset")]
    else
      var s := sleeps[|sleeps| - 1];
      Schedule(sleeps[..|sleeps| - 1]) + [Store("start")] + [Count(s.timer, s.counter)] + [Store("stop")]
  }

  lemma ScheduleExactly(sleeps: seq<Sleep>, s: Sleep)
    ensures Schedule([]) == [Store("init"), Store("reset")]
    ensures Schedule(sleeps + [s]) == Schedule(sleeps) + [Store("start"), Count(s.timer, s.counter), Store("stop")]
  {
    assert (sleeps + [s])[..|sleeps|] == sleeps;
  }

  ghost predicate AllAccepted(a: Adapter, events: seq<Event>)
    requires Mapped(a.chip, a.regs)
  {
    events == []
    || (AllAccepted(a, events[..|events| - 1])
        && var last := events[|events| - 1];
           last.Store? ==> Accepts(Run(a, events[..|events| - 1]), last.text))
  }

  lemma OneMore(a: Adapter, events: seq<Event>, e: Event)
    requires Mapped(a.chip, a.regs)
    ensures Run(a, events + [e]) == Step(Run(a, events), e)
    ensures AllAccepted(a, events + [e]) <==>
      AllAccepted(a, events) && (e.Store? ==> Accepts(Run(a, events), e.text))
  {
    assert (events + [e])[..|events|] == events;
  }

  lemma CommandsNamed()
    ensures StateOf("init") == Init && StateOf("reset") == Reset
    ensures StateOf("start") == Start && StateOf("stop") == Stop
  {
    NamesOne("", Init);
    NamesOne("", Reset);
    NamesOne("", Start);
    NamesOne("", Stop);
  }

  /** What is collected: counting is off and the registers hold what the hardware left. */
  ghost predicate Collected(a: Adapter, s: Sleep)
    requires Mapped(a.chip, a.regs)
  {
    a.state == Stop && Get(a.regs, ENABLE) == 0
    && a.regs[Timer(a.chip).offset] == s.timer && a.regs[Counter(a.chip).offset] == s.counter
  }

  lemma SampleAccepted(a: Adapter, s: Sleep)
    requires Settled(a) && Permitted(a.state, Start)
    ensures var started := Step(a, Store("start"));
      var slept := Step(started, Count(s.timer, s.counter));
      && Accepts(a, "start") && Accepts(slept, "stop")
      && Settled(Step(slept, Store("stop"))) && Collected(Step(slept, Store("stop")), s)
  {
    hide Names, StateOf, Extracted, Written;
    CommandsNamed();
    var started := Step(a, Store("start"));
    var slept := Step(started, Count(s.timer, s.counter));
    StepSettles(a, Store("start"));
    StepSettles(started, Count(s.timer, s.counter));
    StepSettles(slept, Store("stop"));
  }

  lemma SetUpAccepted(a: Adapter)
    requires Settled(a)
    ensures var begun := Step(a, Store("init"));
      && Accepts(a, "init") && Accepts(begun, "reset")
      && Settled(Step(begun, Store("reset"))) && Step(begun, Store("reset")).state == Reset
  {
    hide Names, StateOf, Programmed, Get;
    CommandsNamed();
    StepSettles(a, Store("init"));
    StepSettles(Step(a, Store("init")), Store("reset"));
  }

  /** The driver accepts all of pcitop's commands, whatever state it was in, and whenever the
      counts are collected counting is off and the registers hold what the hardware left. */
  lemma {:induction false} ScheduleAccepted(a: Adapter, sleeps: seq<Sleep>)
    requires Settled(a)
    ensures AllAccepted(a, Schedule(sleeps))
    ensures var r := Run(a, Schedule(sleeps));
      && Settled(r)
      && if sleeps == [] then r.state == Reset else Collected(r, sleeps[|sleeps| - 1])
  {
    hide Step, Accepts, AllAccepted, Run, Get, Enabling, Setting;
    if sleeps == [] {
      SetUpAccepted(a);
      NothingYet(a);
      OneMore(a, [], Store("init"));
      OneMore(a, [Store("init")], Store("reset"));
      assert [] + [Store("init")] == [Store("init")];
      assert Schedule(sleeps) == [Store("init")] + [Store("reset")];
    } else {
      var s := sleeps[|sleeps| - 1];
      var before := Schedule(sleeps[..|sleeps| - 1]);
      ScheduleAccepted(a, sleeps[..|sleeps| - 1]);
      SampleAccepted(Run(a, before), s);
      OneMore(a, before, Store("start"));
      OneMore(a, before + [Store("start")], Count(s.timer, s.counter));
      OneMore(a, before + [Store("start")] + [Count(s.timer, s.counter)], Store("stop"));
    }
  }

  lemma NothingYet(a: Adapter)
    requires Mapped(a.chip, a.regs)
    ensures Run(a, []) == a && AllAccepted(a, [])
  {
  }

  // ----- the loop

  function Number(x: bv64): (n: Word)
    ensures n == x as int
  {
    x as int
  }

  function ReadingOf(chip: Chip, s: Sleep): Reading {
    Reading(Number(Extracted(s.timer, Timer(chip))), Number(Extracted(s.counter, Counter(chip))))
  }

  function Readings(chip: Chip, sleeps: seq<Sleep>): (rs: seq<Reading>)
    ensures |rs| == |sleeps|
  {
    seq(|sleeps|, i requires 0 <= i < |sleeps| => ReadingOf(chip, sleeps[i]))
  }

  /** The number in the low 48 bits of a word. */
  function Low48(x: bv64): Word {
    Number(x & 0xffff_ffff_ffff)
  }

  lemma Low48Is(x: bv64)
    ensures Low48(x) == (x & 0xffff_ffff_ffff) as int
  {
  }

  /** In the words of the registers, on every chip. */
  lemma ReadingIs(chip: Chip, s: Sleep)
    ensures ReadingOf(chip, s) == Reading(Low48(s.timer), Low48(s.counter))
  {
    hide Extracted, Number;
    LowWord(s.timer, Timer(chip).offset);
    LowWord(s.counter, Counter(chip).offset);
  }

  /** How many samples are taken before a signal, or the number asked for, ends the loop;
      quits tells after which sleeps one has come. */
  function Taken(quit: bool, quits: seq<bool>): (n: nat)
    ensures n <= |quits| && (n == 0 <==> quit || quits == [])
    ensures (forall i | 0 <= i < n - 1 :: !quits[i]) && (0 < n < |quits| ==> quits[n - 1])
    decreases |quits|
  {
    if quit || quits == [] then 0 else 1 + Taken(quits[0], quits[1..])
  }

  /** What the registers hold now. */
  ghost function ReadingAt(a: Adapter): Reading
    requires Mapped(a.chip, a.regs)
  {
    Reading(Number(Get(a.regs, Timer(a.chip))), Number(Get(a.regs, Counter(a.chip))))
  }

  lemma WordRead(chip: Chip, regs: Registers)
    requires Mapped(chip, regs)
    ensures var timer, counter := Number(Get(regs, Timer(chip))), Number(Get(regs, Counter(chip)));
      match chip
      case Apollo => (timer == (regs[0x550] & 0xffff_ffff_ffff) as int && counter == (regs[0x558] & 0xffff_ffff_ffff) as int)
      case Gemini => (timer == (regs[0x530] & 0xffff_ffff_ffff) as int && counter == (regs[0x538] & 0xffff_ffff_ffff) as int)
      case Mercury => (timer == (regs[0x518] & 0xffff_ffff_ffff) as int && counter == (regs[0x520] & 0xffff_ffff_ffff) as int)
  {
    hide Extracted;
    LowWords(chip, regs);
  }

  class Bridge {
    const lba: Lba
    const inUse: bool
    var timer: Word
    var counter: Word
    var prevTimer: Word
    var prevCounter: Word

    constructor (lba: Lba, inUse: bool)
      ensures this.lba == lba && this.inUse == inUse
      ensures timer == counter == prevTimer == prevCounter == 0
    {
      this.lba := lba;
      this.inUse := inUse;
      timer, counter, prevTimer, prevCounter := 0, 0, 0, 0;
    }

    /** hplba_collect */
    method Collect()
      requires lba.Valid()
      modifies this`timer, this`counter
      ensures Reading(timer, counter) == ReadingAt(lba.Value())
      ensures match lba.chip
        case Apollo => ({0x550, 0x558} <= lba.regs.Keys
          && timer == (lba.regs[0x550] & 0xffff_ffff_ffff) as int && counter == (lba.regs[0x558] & 0xffff_ffff_ffff) as int)
        case Gemini => ({0x530, 0x538} <= lba.regs.Keys
          && timer == (lba.regs[0x530] & 0xffff_ffff_ffff) as int && counter == (lba.regs[0x538] & 0xffff_ffff_ffff) as int)
        case Mercury => ({0x518, 0x520} <= lba.regs.Keys
          && timer == (lba.regs[0x518] & 0xffff_ffff_ffff) as int && counter == (lba.regs[0x520] & 0xffff_ffff_ffff) as int)
    {
      hide Number, Get;
      WordRead(lba.chip, lba.regs);
      var t, c := lba.Utilization();
      timer, counter := Number(t), Number(c);
    }

    /** The utilization since the last sample, in percent. */
    method Process() returns (util: Option<real>)
      modifies this`prevTimer, this`prevCounter
      ensures util == Shown(inUse, Reading(old(prevTimer), old(prevCounter)), Reading(timer, counter))
      ensures var time := (timer - old(prevTimer)) % 0x1_0000_0000_0000_0000;
        var count := (counter - old(prevCounter)) % 0x1_0000_0000_0000_0000;
        if !inUse then util == Some(0.0)
        else if time == 0 then util == None
        else util == Some(count as real * 100.0 / time as real)
      ensures prevTimer == timer && prevCounter == counter
    {
      if !inUse {
        util := Some(0.0);
      } else if timer == prevTimer {
        util := None;
      } else {
        util := Some(Minus(counter, prevCounter) as real * 100.0 / Minus(timer, prevTimer) as real);
      }
      prevTimer := timer;
      prevCounter := counter;
    }
  }

  lemma TakenMore(quits: seq<bool>, k: nat)
    requires k < |quits|
    ensures Taken(false, quits[k..]) == 1 + Taken(quits[k], quits[k + 1..])
  {
    assert quits[k..][1..] == quits[k + 1..];
  }

  lemma RunMore(a: Adapter, sleeps: seq<Sleep>, k: nat)
    requires Settled(a) && k < |sleeps|
    ensures var r := Run(a, Schedule(sleeps[..k]));
      Run(a, Schedule(sleeps[..k + 1]))
      == Step(Step(Step(r, Store("start")), Count(sleeps[k].timer, sleeps[k].counter)), Store("stop"))
  {
    hide Step, AllAccepted;
    var s := sleeps[k];
    var before := Schedule(sleeps[..k]);
    assert sleeps[..k + 1][..k] == sleeps[..k];
    OneMore(a, before, Store("start"));
    OneMore(a, before + [Store("start")], Count(s.timer, s.counter));
    OneMore(a, before + [Store("start")] + [Count(s.timer, s.counter)], Store("stop"));
  }

  lemma RunBegun(a: Adapter)
    requires Settled(a)
    ensures Mapped(a.chip, a.regs)
    ensures Run(a, Schedule([])) == Step(Step(a, Store("init")), Store("reset"))
  {
    hide Step, AllAccepted;
    NothingYet(a);
    OneMore(a, [], Store("init"));
    OneMore(a, [Store("init")], Store("reset"));
    assert [] + [Store("init")] == [Store("init")];
    assert Schedule([]) == [Store("init")] + [Store("reset")];
  }

  /** After k samples: the adapter has seen the schedule so far, and what was printed and
      is remembered comes from the readings so far. */
  ghost predicate Underway(start: Adapter, now: Adapter, inUse: bool, sleeps: seq<Sleep>, last: Reading,
      printed: seq<Option<real>>)
  {
    var rs := Readings(start.chip, sleeps);
    && Settled(start) && now == Run(start, Schedule(sleeps))
    && printed == Printouts(inUse, rs)
    && last == if rs == [] then Reading(0, 0) else rs[|rs| - 1]
  }

  lemma UnderwayNone(start: Adapter, inUse: bool)
    requires Settled(start)
    ensures Underway(start, Step(Step(start, Store("init")), Store("reset")), inUse, [], Reading(0, 0), [])
  {
    hide Step, Schedule, Get;
    RunBegun(start);
  }

  /** The adapter can be started, and what is collected after the stop is what was counted. */
  lemma UnderwayReady(start: Adapter, now: Adapter, inUse: bool, sleeps: seq<Sleep>, last: Reading,
      printed: seq<Option<real>>)
    requires Underway(start, now, inUse, sleeps, last, printed)
    ensures Settled(now) && Permitted(now.state, Start) && now.chip == start.chip
  {
    hide Run, Schedule, AllAccepted, Get, Printouts;
    ScheduleAccepted(start, sleeps);
  }

  lemma UnderwayMore(start: Adapter, now: Adapter, inUse: bool, sleeps: seq<Sleep>, last: Reading,
      printed: seq<Option<real>>, s: Sleep)
    requires Underway(start, now, inUse, sleeps, last, printed) && Mapped(now.chip, now.regs)
    ensures var later := Step(Step(Step(now, Store("start")), Count(s.timer, s.counter)), Store("stop"));
      var read := ReadingOf(start.chip, s);
      Underway(start, later, inUse, sleeps + [s], read, printed + [Shown(inUse, last, read)])
  {
    hide Step, Run, Schedule, Get, Shown, Settled, Readings, Printouts;
    var more := sleeps + [s];
    assert more[..|sleeps|] == sleeps && more[..|sleeps| + 1] == more;
    RunMore(start, more, |sleeps|);
    ReadingsMore(start.chip, inUse, sleeps, s);
  }

  lemma ReadingsMore(chip: Chip, inUse: bool, sleeps: seq<Sleep>, s: Sleep)
    ensures var rs, more := Readings(chip, sleeps), Readings(chip, sleeps + [s]);
      && more == rs + [ReadingOf(chip, s)]
      && Printouts(inUse, more) == Printouts(inUse, rs) +
           [Shown(inUse, if rs == [] then Reading(0, 0) else rs[|rs| - 1], ReadingOf(chip, s))]
  {
    hide Shown, ReadingOf;
    PrintoutsMore(inUse, Readings(chip, sleeps), ReadingOf(chip, s));
    assert Readings(chip, sleeps + [s]) == Readings(chip, sleeps) + [ReadingOf(chip, s)];
  }

  lemma PrintoutsMore(inUse: bool, rs: seq<Reading>, r: Reading)
    ensures Printouts(inUse, rs + [r]) == Printouts(inUse, rs) +
      [Shown(inUse, if rs == [] then Reading(0, 0) else rs[|rs| - 1], r)]
  {
    hide Shown;
  }

  // ----- all displayed bridges

  ghost predicate Apart(bridges: seq<Bridge>) {
    forall i, j {:trigger bridges[i], bridges[j]} | 0 <= i < j < |bridges| ::
      bridges[i] != bridges[j] && bridges[i].lba != bridges[j].lba
  }

  ghost function Drivers(bridges: seq<Bridge>): set<Lba> {
    set b: Bridge | b in bridges :: b.lba
  }

  /** Every bridge's adapter is where states says, and in order. */
  ghost predicate At(bridges: seq<Bridge>, states: seq<Adapter>)
    reads Drivers(bridges)
  {
    |states| == |bridges| && forall i {:trigger bridges[i]} {:trigger states[i]} | 0 <= i < |bridges| ::
      bridges[i].lba.Value() == states[i] && Settled(states[i])
  }

  /** The states after each adapter has made one step. */
  ghost predicate Stepped(before: seq<Adapter>, after: seq<Adapter>, events: seq<Event>) {
    |after| == |before| == |events| && forall i {:trigger after[i]} | 0 <= i < |after| ::
      Mapped(before[i].chip, before[i].regs) && after[i] == Step(before[i], events[i])
  }

  ghost function Told(n: nat, text: string): seq<Event> {
    seq(n, i => Store(text))
  }

  ghost function Counted(sleeps: seq<Sleep>): seq<Event> {
    seq(|sleeps|, i requires 0 <= i < |sleeps| => Count(sleeps[i].timer, sleeps[i].counter))
  }

  /** One command to every displayed bridge. */
  method CommandAll(bridges: seq<Bridge>, text: string, ghost before: seq<Adapter>) returns (ghost after: seq<Adapter>)
    requires Apart(bridges) && At(bridges, before)
    modifies Drivers(bridges)
    ensures At(bridges, after) && Stepped(before, after, Told(|bridges|, text))
  {
    hide Step, Accepts, Settled;
    AtMapped(bridges, before);
    after := [];
    for k := 0 to |bridges|
      invariant |after| == k && forall i {:trigger after[i]} | 0 <= i < k ::
        Settled(after[i]) && bridges[i].lba.Value() == after[i] && after[i] == Step(before[i], Store(text))
      invariant forall i {:trigger bridges[i]} | k <= i < |bridges| :: bridges[i].lba.Value() == before[i]
    {
      assert bridges[k] in bridges;
      var _ := bridges[k].lba.UtilizationStore(text);
      after := after + [bridges[k].lba.Value()];
    }
  }

  /** The adapters count while pcitop sleeps. */
  method HardwareAll(bridges: seq<Bridge>, sleeps: seq<Sleep>, ghost before: seq<Adapter>)
    returns (ghost after: seq<Adapter>)
    requires Apart(bridges) && At(bridges, before) && |sleeps| == |bridges|
    modifies Drivers(bridges)
    ensures At(bridges, after) && Stepped(before, after, Counted(sleeps))
  {
    hide Step, Settled;
    AtMapped(bridges, before);
    after := [];
    for k := 0 to |bridges|
      invariant |after| == k && forall i {:trigger after[i]} | 0 <= i < k ::
        Settled(after[i]) && bridges[i].lba.Value() == after[i] && after[i] == Step(before[i], Count(sleeps[i].timer, sleeps[i].counter))
      invariant forall i {:trigger bridges[i]} | k <= i < |bridges| :: bridges[i].lba.Value() == before[i]
    {
      assert bridges[k] in bridges;
      bridges[k].lba.Hardware(sleeps[k].timer, sleeps[k].counter);
      after := after + [bridges[k].lba.Value()];
    }
  }

  /** Every bridge remembers what its adapter's registers hold. */
  method CollectAll(bridges: seq<Bridge>, ghost states: seq<Adapter>)
    requires Apart(bridges) && At(bridges, states)
    modifies (set b | b in bridges)`timer, (set b | b in bridges)`counter
    ensures forall i {:trigger bridges[i]} | 0 <= i < |bridges| ::
      Reading(bridges[i].timer, bridges[i].counter) == ReadingAt(states[i])
  {
    hide ReadingAt, Get;
    for k := 0 to |bridges|
      invariant forall i {:trigger bridges[i]} | 0 <= i < k ::
        Reading(bridges[i].timer, bridges[i].counter) == ReadingAt(states[i])
    {
      assert bridges[k] in bridges;
      bridges[k].Collect();
    }
  }

  /** The line that is printed for a sample. */
  method ProcessAll(bridges: seq<Bridge>) returns (line: seq<Option<real>>)
    requires Apart(bridges)
    modifies (set b | b in bridges)`prevTimer, (set b | b in bridges)`prevCounter
    ensures |line| == |bridges| && forall i {:trigger bridges[i]} {:trigger line[i]} | 0 <= i < |bridges| ::
      && line[i] == Shown(bridges[i].inUse, Reading(old(bridges[i].prevTimer), old(bridges[i].prevCounter)),
                          Reading(bridges[i].timer, bridges[i].counter))
      && bridges[i].prevTimer == bridges[i].timer && bridges[i].prevCounter == bridges[i].counter
  {
    hide Shown;
    line := [];
    for k := 0 to |bridges|
      invariant |line| == k && forall i {:trigger bridges[i]} {:trigger line[i]} | 0 <= i < k ::
        && line[i] == Shown(bridges[i].inUse, Reading(old(bridges[i].prevTimer), old(bridges[i].prevCounter)),
                            Reading(bridges[i].timer, bridges[i].counter))
        && bridges[i].prevTimer == bridges[i].timer && bridges[i].prevCounter == bridges[i].counter
      invariant forall i {:trigger bridges[i]} | k <= i < |bridges| ::
        bridges[i].prevTimer == old(bridges[i].prevTimer) && bridges[i].prevCounter == old(bridges[i].prevCounter)
    {
      assert bridges[k] in bridges;
      var util := bridges[k].Process();
      line := line + [util];
    }
  }

  ghost predicate Wide<T>(rows: seq<seq<T>>, n: nat) {
    forall j {:trigger rows[j]} | 0 <= j < |rows| :: |rows[j]| == n
  }

  ghost function Column<T>(rows: seq<seq<T>>, n: nat, i: nat): seq<T>
    requires Wide(rows, n) && i < n
  {
    seq(|rows|, j requires 0 <= j < |rows| => rows[j][i])
  }

  lemma ColumnMore<T>(rows: seq<seq<T>>, row: seq<T>, i: nat)
    requires Wide(rows, |row|) && i < |row|
    ensures Wide(rows + [row], |row|) && Column(rows + [row], |row|, i) == Column(rows, |row|, i) + [row[i]]
  {
  }

  /** For every bridge, the samples taken so far are all that has happened and been printed. */
  ghost predicate Going(starts: seq<Adapter>, states: seq<Adapter>, inUses: seq<bool>, taken: seq<seq<Sleep>>,
      lasts: seq<Reading>, lines: seq<seq<Option<real>>>)
  {
    var n := |starts|;
    && |states| == |inUses| == |lasts| == n && Wide(taken, n) && Wide(lines, n)
    && forall i {:trigger states[i]} | 0 <= i < n ::
         Underway(starts[i], states[i], inUses[i], Column(taken, n, i), lasts[i], Column(lines, n, i))
  }

  lemma CollectedReading(a: Adapter, s: Sleep)
    requires Settled(a) && Permitted(a.state, Start)
    ensures var r := Step(Step(Step(a, Store("start")), Count(s.timer, s.counter)), Store("stop"));
      Mapped(r.chip, r.regs) && ReadingAt(r) == ReadingOf(a.chip, s)
  {
    hide Step, Accepts, Settled, Extracted;
    SettledMapped(a);
    SampleAccepted(a, s);
  }

  lemma SettledMapped(a: Adapter)
    requires Settled(a)
    ensures Mapped(a.chip, a.regs)
  {
  }

  /** One more sample of every bridge. */
  lemma GoingMore(starts: seq<Adapter>, states: seq<Adapter>, inUses: seq<bool>, taken: seq<seq<Sleep>>,
      lasts: seq<Reading>, lines: seq<seq<Option<real>>>, started: seq<Adapter>, slept: seq<Adapter>,
      stopped: seq<Adapter>, row: seq<Sleep>, gauges: seq<Reading>, line: seq<Option<real>>)
    requires Going(starts, states, inUses, taken, lasts, lines) && |row| == |starts| == |line| == |gauges|
    requires Stepped(states, started, Told(|starts|, "start")) && Stepped(started, slept, Counted(row))
    requires Stepped(slept, stopped, Told(|starts|, "stop"))
    requires forall i {:trigger gauges[i]} | 0 <= i < |starts| ::
      && Mapped(stopped[i].chip, stopped[i].regs) && gauges[i] == ReadingAt(stopped[i])
      && line[i] == Shown(inUses[i], lasts[i], gauges[i])
    ensures Going(starts, stopped, inUses, taken + [row], gauges, lines + [line])
  {
    hide Step, Underway, Shown, ReadingAt, ReadingOf, Column, Wide;
    forall i {:trigger stopped[i]} | 0 <= i < |starts|
      ensures Wide(taken + [row], |starts|) && Wide(lines + [line], |starts|)
      ensures Underway(starts[i], stopped[i], inUses[i], Column(taken + [row], |starts|, i), gauges[i],
                       Column(lines + [line], |starts|, i))
    {
      ColumnMore(taken, row, i);
      ColumnMore(lines, line, i);
      OneGoing(starts[i], states[i], inUses[i], Column(taken, |starts|, i), lasts[i], Column(lines, |starts|, i), row[i]);
      assert started[i] == Step(states[i], Store("start"));
      assert slept[i] == Step(started[i], Count(row[i].timer, row[i].counter));
      assert stopped[i] == Step(slept[i], Store("stop"));
      assert gauges[i] == ReadingAt(stopped[i]);
    }
    WideMore(taken, row);
    WideMore(lines, line);
  }

  lemma WideMore<T>(rows: seq<seq<T>>, row: seq<T>)
    requires Wide(rows, |row|)
    ensures Wide(rows + [row], |row|)
  {
  }

  lemma OneGoing(start: Adapter, now: Adapter, inUse: bool, sleeps: seq<Sleep>, last: Reading,
      printed: seq<Option<real>>, s: Sleep)
    requires Underway(start, now, inUse, sleeps, last, printed)
    ensures Mapped(now.chip, now.regs)
    ensures var later := Step(Step(Step(now, Store("start")), Count(s.timer, s.counter)), Store("stop"));
      && Mapped(later.chip, later.regs)
      && Underway(start, later, inUse, sleeps + [s], ReadingAt(later), printed + [Shown(inUse, last, ReadingAt(later))])
  {
    hide Step, Underway, Shown, ReadingAt, ReadingOf, Settled, Permitted;
    UnderwayReady(start, now, inUse, sleeps, last, printed);
    SettledMapped(now);
    UnderwayMore(start, now, inUse, sleeps, last, printed, s);
    CollectedReading(now, s);
  }

  lemma GoingNone(starts: seq<Adapter>, inited: seq<Adapter>, states: seq<Adapter>, inUses: seq<bool>, lasts: seq<Reading>)
    requires |starts| == |inUses| == |lasts| && forall a | a in lasts :: a == Reading(0, 0)
    requires forall i {:trigger starts[i]} | 0 <= i < |starts| :: Settled(starts[i])
    requires Stepped(starts, inited, Told(|starts|, "init")) && Stepped(inited, states, Told(|starts|, "reset"))
    ensures Going(starts, states, inUses, [], lasts, [])
  {
    hide Step, Underway, Settled;
    forall i {:trigger states[i]} | 0 <= i < |starts|
      ensures Underway(starts[i], states[i], inUses[i], Column([], |starts|, i), lasts[i], Column([], |starts|, i))
    {
      UnderwayNone(starts[i], inUses[i]);
      SettledMapped(starts[i]);
      assert inited[i] == Step(starts[i], Store("init"));
      assert lasts[i] in lasts;
      ColumnNone<Sleep>(|starts|, i);
      ColumnNone<Option<real>>(|starts|, i);
    }
  }

  lemma ColumnNone<T>(n: nat, i: nat)
    requires i < n
    ensures Wide<T>([], n) && Column<T>([], n, i) == []
  {
  }

  ghost function Gauges(bridges: seq<Bridge>): (r: seq<Reading>)
    reads bridges
    ensures |r| == |bridges|
    ensures forall i {:trigger r[i]} {:trigger bridges[i]} | 0 <= i < |r| :: r[i] == Reading(bridges[i].timer, bridges[i].counter)
  {
    seq(|bridges|, i requires 0 <= i < |bridges| reads bridges => Reading(bridges[i].timer, bridges[i].counter))
  }

  ghost function InUses(bridges: seq<Bridge>): (r: seq<bool>)
    ensures |r| == |bridges|
    ensures forall i {:trigger r[i]} {:trigger bridges[i]} | 0 <= i < |r| :: r[i] == bridges[i].inUse
  {
    seq(|bridges|, i requires 0 <= i < |bridges| => bridges[i].inUse)
  }

  /** The previous readings are the latest ones. */
  ghost predicate Remembered(bridges: seq<Bridge>)
    reads bridges
  {
    forall i {:trigger bridges[i]} | 0 <= i < |bridges| ::
      bridges[i].prevTimer == bridges[i].timer && bridges[i].prevCounter == bridges[i].counter
  }

  /** One round of the loop: start, sleep, stop, collect, process. */
  method SampleAll(bridges: seq<Bridge>, row: seq<Sleep>, ghost starts: seq<Adapter>, ghost states: seq<Adapter>,
      ghost taken: seq<seq<Sleep>>, ghost lines: seq<seq<Option<real>>>)
    returns (line: seq<Option<real>>, ghost stopped: seq<Adapter>)
    requires Apart(bridges) && At(bridges, states) && |row| == |bridges| == |starts| && Remembered(bridges)
    requires Going(starts, states, InUses(bridges), taken, Gauges(bridges), lines)
    modifies (set b | b in bridges), Drivers(bridges)
    ensures At(bridges, stopped) && Remembered(bridges) && |line| == |bridges|
    ensures Going(starts, stopped, InUses(bridges), taken + [row], Gauges(bridges), lines + [line])
  {
    hide Step, Going, Shown, ReadingAt, Stepped, Settled;
    ghost var lasts := Gauges(bridges);
    ghost var started := CommandAll(bridges, "start", states);
    ghost var slept := HardwareAll(bridges, row, started);
    stopped := CommandAll(bridges, "stop", slept);
    AtMapped(bridges, stopped);
    CollectAll(bridges, stopped);
    line := ProcessAll(bridges);
    GoingMore(starts, states, InUses(bridges), taken, lasts, lines, started, slept, stopped, row, Gauges(bridges), line);
  }

  lemma AtMapped(bridges: seq<Bridge>, states: seq<Adapter>)
    requires At(bridges, states)
    ensures forall i {:trigger states[i]} | 0 <= i < |states| :: Mapped(states[i].chip, states[i].regs)
  {
  }

  /** What the samples that were taken leave of one bridge. */
  ghost predicate Measured(start: Adapter, now: Adapter, inUse: bool, taken: seq<Sleep>, printed: seq<Option<real>>,
      average: Option<real>)
  {
    var rs := Readings(start.chip, taken);
    && Settled(start) && now == Run(start, Schedule(taken))
    && printed == Printouts(inUse, rs)
    && average == Average(inUse, if rs == [] then Reading(0, 0) else rs[|rs| - 1])
  }

  predicate ShownBetween(printed: seq<Option<real>>, lo: real, hi: real) {
    forall i | 0 <= i < |printed| :: printed[i].Some? && lo <= printed[i].value <= hi
  }

  /** As long as the timer runs and the counter does not run backwards, numbers are printed,
      and the average is the mean of what was printed, weighted by time, and lies between
      any bounds of it. */
  lemma MeasuredIsMean(start: Adapter, now: Adapter, inUse: bool, taken: seq<Sleep>, printed: seq<Option<real>>,
      average: Option<real>)
    requires Measured(start, now, inUse, taken, printed, average)
    requires taken != [] && Rising(Readings(start.chip, taken))
    ensures average.Some? && |printed| == |taken| && forall i | 0 <= i < |printed| :: printed[i].Some?
    ensures var rs := Readings(start.chip, taken);
      average.value * rs[|rs| - 1].timer as real == Weighted(inUse, rs)
    ensures forall lo, hi | ShownBetween(printed, lo, hi) :: lo <= average.value <= hi
  {
    hide Settled, Run, Schedule, Readings, Average, Weighted, Utilizations, Printouts, Rising;
    var rs := Readings(start.chip, taken);
    AverageIsMean(inUse, rs);
    forall i | 0 <= i < |printed| ensures printed[i] == Some(Utilizations(inUse, rs)[i]) {
      RisingShown(inUse, rs, i);
    }
    forall lo, hi | ShownBetween(printed, lo, hi) ensures lo <= average.value <= hi {
      assert Bounds(Utilizations(inUse, rs), lo, hi);
    }
  }

  lemma PrintedSample(start: Adapter, now: Adapter, inUse: bool, taken: seq<Sleep>, printed: seq<Option<real>>,
      average: Option<real>, k: nat)
    requires Measured(start, now, inUse, taken, printed, average) && k < |taken|
    ensures |printed| == |taken|
    ensures var before := if k == 0 then Sleep(0, 0) else taken[k - 1];
      printed[k] == Shown(inUse, Reading(Low48(before.timer), Low48(before.counter)),
                          Reading(Low48(taken[k].timer), Low48(taken[k].counter)))
  {
    hide Settled, Run, Schedule, ReadingOf, Low48, Shown, Average;
    ReadingIs(start.chip, taken[k]);
    ReadingIs(start.chip, if k == 0 then Sleep(0, 0) else taken[k - 1]);
    NoWord();
  }

  lemma PrintedAverage(start: Adapter, now: Adapter, inUse: bool, taken: seq<Sleep>, printed: seq<Option<real>>,
      average: Option<real>)
    requires Measured(start, now, inUse, taken, printed, average) && taken != []
    ensures var last := taken[|taken| - 1];
      average == Average(inUse, Reading(Low48(last.timer), Low48(last.counter)))
  {
    hide Settled, Run, Schedule, ReadingOf, Low48, Printouts, Average;
    ReadingIs(start.chip, taken[|taken| - 1]);
  }

  lemma NoWord()
    ensures Low48(0) == 0
  {
  }

  /** What measure_utilization leaves of all of them. */
  ghost predicate AllMeasured(starts: seq<Adapter>, states: seq<Adapter>, inUses: seq<bool>, taken: seq<seq<Sleep>>,
      lines: seq<seq<Option<real>>>, averages: seq<Option<real>>)
  {
    var n := |starts|;
    && |states| == |inUses| == |averages| == n && Wide(taken, n) && Wide(lines, n)
    && forall i {:trigger states[i]} | 0 <= i < n ::
         Measured(starts[i], states[i], inUses[i], Column(taken, n, i), Column(lines, n, i), averages[i])
  }

  /** What is printed of the i-th bridge in the k-th line and as its average, in the words
      that its registers held. */
  lemma PrintedExactly(starts: seq<Adapter>, states: seq<Adapter>, inUses: seq<bool>, taken: seq<seq<Sleep>>,
      lines: seq<seq<Option<real>>>, averages: seq<Option<real>>, i: nat, k: nat)
    requires AllMeasured(starts, states, inUses, taken, lines, averages) && i < |starts| && k < |taken|
    ensures |inUses| == |averages| == |starts| && |lines| == |taken| && |lines[k]| == |starts|
    ensures |taken[k]| == |starts| && (k > 0 ==> |taken[k - 1]| == |starts|) && |taken[|taken| - 1]| == |starts|
    ensures var before, now := if k == 0 then Sleep(0, 0) else taken[k - 1][i], taken[k][i];
      var time := (Low48(now.timer) - Low48(before.timer)) % 0x1_0000_0000_0000_0000;
      var count := (Low48(now.counter) - Low48(before.counter)) % 0x1_0000_0000_0000_0000;
      lines[k][i] == if !inUses[i] then Some(0.0) else if time == 0 then None else Some(count as real * 100.0 / time as real)
    ensures var last := taken[|taken| - 1][i];
      var time, count := Low48(last.timer), Low48(last.counter);
      averages[i] == if !inUses[i] then Some(0.0) else if time == 0 then None else Some(count as real * 100.0 / time as real)
  {
    hide Measured, Low48;
    var n := |starts|;
    assert states[i] == states[i];
    ColumnAt(taken, n, i);
    ColumnAt(lines, n, i);
    PrintedSample(starts[i], states[i], inUses[i], Column(taken, n, i), Column(lines, n, i), averages[i], k);
    PrintedAverage(starts[i], states[i], inUses[i], Column(taken, n, i), Column(lines, n, i), averages[i]);
  }

  lemma ColumnAt<T>(rows: seq<seq<T>>, n: nat, i: nat)
    requires Wide(rows, n) && i < n
    ensures |Column(rows, n, i)| == |rows|
    ensures forall j {:trigger rows[j]} | 0 <= j < |rows| :: |rows[j]| == n && Column(rows, n, i)[j] == rows[j][i]
  {
  }

  lemma GoingAll(starts: seq<Adapter>, states: seq<Adapter>, inUses: seq<bool>, taken: seq<seq<Sleep>>,
      lasts: seq<Reading>, lines: seq<seq<Option<real>>>, averages: seq<Option<real>>)
    requires Going(starts, states, inUses, taken, lasts, lines) && |averages| == |starts|
    requires forall i {:trigger averages[i]} | 0 <= i < |averages| :: averages[i] == Average(inUses[i], lasts[i])
    ensures AllMeasured(starts, states, inUses, taken, lines, averages)
  {
    hide Column, Wide, Average, Printouts, Schedule, Settled, Run;
  }

  /** The averages, from the latest readings alone. */
  method AverageAll(bridges: seq<Bridge>) returns (averages: seq<Option<real>>)
    ensures |averages| == |bridges|
    ensures forall i {:trigger averages[i]} | 0 <= i < |averages| ::
      averages[i] == Average(bridges[i].inUse, Reading(bridges[i].timer, bridges[i].counter))
  {
    averages := [];
    for k := 0 to |bridges|
      invariant |averages| == k && forall i {:trigger averages[i]} | 0 <= i < k ::
        averages[i] == Average(bridges[i].inUse, Reading(bridges[i].timer, bridges[i].counter))
    {
      var b := bridges[k];
      var util: Option<real>;
      if !b.inUse {
        util := Some(0.0);
      } else if b.timer == 0 {
        util := None;
      } else {
        util := Some(b.counter as real * 100.0 / b.timer as real);
      }
      averages := averages + [util];
    }
  }

  /** measure_utilization: quit tells whether a signal came before, quits after which
      sleeps one has come. */
  method MeasureUtilization(bridges: seq<Bridge>, quit: bool, sleeps: seq<seq<Sleep>>, quits: seq<bool>,
      ghost starts: seq<Adapter>)
    returns (lines: seq<seq<Option<real>>>, interrupted: bool, averages: seq<Option<real>>, ghost states: seq<Adapter>)
    requires Apart(bridges) && At(bridges, starts) && Remembered(bridges)
    requires forall b <- bridges :: b.timer == b.counter == 0
    requires |sleeps| == |quits| && Wide(sleeps, |bridges|)
    modifies (set b | b in bridges), Drivers(bridges)
    ensures At(bridges, states)
    ensures AllMeasured(starts, states, InUses(bridges), sleeps[..Taken(quit, quits)], lines, averages)
    ensures interrupted == (Taken(quit, quits) < |quits|)
  {
    hide Step, Going, Stepped, Settled, Taken, AllMeasured, Average;
    AtSettled(bridges, starts);
    ghost var inited := CommandAll(bridges, "init", starts);
    states := CommandAll(bridges, "reset", inited);
    GoingNone(starts, inited, states, InUses(bridges), Gauges(bridges));
    var timeToQuit := quit;
    var nsamples := |sleeps|;
    lines := [];
    assert sleeps[..0] == [] && quits[0..] == quits;
    while !timeToQuit && nsamples != 0
      invariant 0 <= nsamples <= |sleeps|
      invariant At(bridges, states) && Remembered(bridges)
      invariant Going(starts, states, InUses(bridges), sleeps[..|sleeps| - nsamples], Gauges(bridges), lines)
      invariant Taken(quit, quits) == |sleeps| - nsamples + Taken(timeToQuit, quits[|sleeps| - nsamples..])
      decreases nsamples
    {
      var k := |sleeps| - nsamples;
      TakenMore(quits, k);
      assert sleeps[..k] + [sleeps[k]] == sleeps[..k + 1];
      var line;
      line, states := SampleAll(bridges, sleeps[k], starts, states, sleeps[..k], lines);
      timeToQuit := quits[k];
      lines := lines + [line];
      nsamples := nsamples - 1;
    }
    TakenAll(timeToQuit, quits[|sleeps| - nsamples..]);
    interrupted := nsamples != 0;
    averages := AverageAll(bridges);
    GoingAll(starts, states, InUses(bridges), sleeps[..|sleeps| - nsamples], Gauges(bridges), lines, averages);
  }

  lemma AtSettled(bridges: seq<Bridge>, states: seq<Adapter>)
    requires At(bridges, states)
    ensures forall i {:trigger states[i]} | 0 <= i < |states| :: Settled(states[i])
  {
  }

  lemma TakenAll(now: bool, quits: seq<bool>)
    requires now || quits == []
    ensures Taken(now, quits) == 0
  {
  }
}
