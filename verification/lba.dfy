/** The bus adapters' utilization counters: bit fields of registers, and the states the
    driver takes the counters through. */
module Adapters {
  import opened Words

  const EINVAL := 22

  // ----- bit fields of registers

  /** A field of a 64-bit register: where the register is and where the field lies in it. */
  datatype Field = Field(offset: nat, shift: nat, mask: bv64)

  /** The bits of the register that the field covers. */
  function Covered(f: Field): bv64 {
    Left(f.mask, f.shift)
  }

  /** No bit of the field falls off the end of its register. */
  predicate Sound(f: Field) {
    Right(Covered(f), f.shift) == f.mask
  }

  predicate Fits(f: Field, value: bv64) {
    Except(value, f.mask) == 0
  }

  /** LBA_REG */
  function Extracted(contents: bv64, f: Field): bv64 {
    And(Right(contents, f.shift), f.mask)
  }

  /** _lba_reg64_write */
  function Written(contents: bv64, f: Field, value: bv64): bv64 {
    Xor(Except(contents, Covered(f)), Left(value, f.shift))
  }

  /** A field write reads back exactly when the value fits the field, and then no bit
      outside the field changes. */
  lemma WrittenField(contents: bv64, f: Field, value: bv64)
    requires Sound(f)
    ensures Extracted(Written(contents, f, value), f) == value <==> Fits(f, value)
    ensures Fits(f, value) ==> Except(Written(contents, f, value), Covered(f)) == Except(contents, Covered(f))
  {
    hide Left, Right, And, Except, Xor;
    var after := Written(contents, f, value);
    Inside(Right(after, f.shift), f.mask, ONES);
    if Fits(f, value) {
      LeftInside(value, f.mask, f.shift);
      Replaced(contents, Covered(f), Left(value, f.shift));
      RightAnd(after, Covered(f), f.shift);
      LeftRight(f.mask, f.shift);
      LeftRight(value, f.shift);
      Inside(value, f.mask, Right(ONES, f.shift));
    }
  }

  // ----- the registers of the three chips

  /** The device memory of one adapter. */
  type Registers = map<nat, bv64>

  datatype Chip = Apollo | Gemini | Mercury

  const ENABLE := Field(0x500, 0, 0xf)
  const ALWAYS := Field(0x508, 0, 0x1)

  function Control(chip: Chip): Field {
    match chip
    case Apollo => Field(0x538, 33, 0x3)
    case Gemini => Field(0x528, 0, ONES)
    case Mercury => Field(0x510, 0, ONES)
  }

  function Setting(chip: Chip): bv64 {
    if chip.Apollo? then 0x3 else 0x7979_00ff_001f_043c
  }

  function Timer(chip: Chip): Field {
    Field(match chip case Apollo => 0x550 case Gemini => 0x530 case Mercury => 0x518, 0, 0xffff_ffff_ffff)
  }

  function Counter(chip: Chip): Field {
    Field(match chip case Apollo => 0x558 case Gemini => 0x538 case Mercury => 0x520, 0, 0xffff_ffff_ffff)
  }

  predicate Mapped(chip: Chip, regs: Registers) {
    {ENABLE.offset, ALWAYS.offset, Control(chip).offset, Timer(chip).offset, Counter(chip).offset} <= regs.Keys
  }

  lemma FieldsSound(chip: Chip)
    ensures Sound(ENABLE) && Sound(ALWAYS) && Sound(Control(chip))
    ensures Fits(ENABLE, 0) && Fits(ENABLE, 0x3) && Fits(ENABLE, 0xf) && Fits(ALWAYS, 0x1)
    ensures Fits(Control(chip), Setting(chip))
  {
  }

  function Get(regs: Registers, f: Field): bv64
    requires f.offset in regs
  {
    Extracted(regs[f.offset], f)
  }

  function Put(regs: Registers, f: Field, value: bv64): Registers
    requires f.offset in regs
  {
    regs[f.offset := Written(regs[f.offset], f, value)]
  }

  /** The bits of a register that the driver sets or the hardware counts in. */
  function Driven(chip: Chip, offset: nat): bv64 {
    if offset == Timer(chip).offset || offset == Counter(chip).offset then ONES
    else if offset == ENABLE.offset then Covered(ENABLE)
    else if offset == ALWAYS.offset then Covered(ALWAYS)
    else if offset == Control(chip).offset then Covered(Control(chip))
    else 0
  }

  lemma CoveredFirst(offset: nat, mask: bv64)
    ensures Covered(Field(offset, 0, mask)) == mask
  {
  }

  lemma CoveredShifted(offset: nat)
    ensures Covered(Field(offset, 33, 0x3)) == 0x6_0000_0000
  {
    ShiftsAre(0x3);
    hide Left;
  }

  /** Bit by bit, for the registers that are neither timer nor counter. */
  lemma DrivenExactly(chip: Chip, offset: nat)
    ensures Driven(chip, 0x500) == 0xf && Driven(chip, 0x508) == 0x1
    ensures match chip
      case Apollo => (Driven(chip, 0x538) == 0x6_0000_0000
        && (offset !in {0x500, 0x508, 0x538, 0x550, 0x558} ==> Driven(chip, offset) == 0))
      case Gemini => (offset !in {0x500, 0x508, 0x528, 0x530, 0x538} ==> Driven(chip, offset) == 0)
      case Mercury => (offset !in {0x500, 0x508, 0x510, 0x518, 0x520} ==> Driven(chip, offset) == 0)
  {
    hide Covered;
    CoveredFirst(0x500, 0xf);
    CoveredFirst(0x508, 0x1);
    CoveredShifted(0x538);
  }

  /** All other bits of the device are the same. */
  predicate Undisturbed(chip: Chip, before: Registers, after: Registers) {
    before.Keys == after.Keys
    && forall o <- before.Keys :: Except(after[o], Driven(chip, o)) == Except(before[o], Driven(chip, o))
  }

  lemma PutField(chip: Chip, regs: Registers, f: Field, value: bv64)
    requires Mapped(chip, regs) && Sound(f) && Fits(f, value) && f in {ENABLE, ALWAYS, Control(chip)}
    ensures Get(Put(regs, f, value), f) == value
    ensures Undisturbed(chip, regs, Put(regs, f, value))
    ensures forall g: Field | g.offset in regs && g.offset != f.offset :: Get(Put(regs, f, value), g) == Get(regs, g)
  {
    hide Extracted, Written, Covered, Except, Sound, Fits;
    WrittenField(regs[f.offset], f, value);
  }

  // ----- the states of the counters

  datatype UtilState = Init | Reset | Start | Stop | Unknown

  /** How far a counter has come, and how far it must have come to enter a state. */
  function Progress(state: UtilState): nat {
    match state case Unknown => 0 case Init => 1 case Reset => 2 case Start => 3 case Stop => 3
  }

  function Needed(state: UtilState): nat {
    match state case Unknown => 4 case Init => 0 case Reset => 1 case Start => 2 case Stop => 3
  }

  predicate Permitted(now: UtilState, next: UtilState) {
    Progress(now) >= Needed(next)
  }

  /** What the enable field holds in each state. */
  function Enabling(state: UtilState): bv64 {
    match state case Init => 0 case Reset => 0xf case Start => 0x3 case Stop => 0 case Unknown => 0
  }

  function Programmed(chip: Chip, regs: Registers, next: UtilState): Registers
    requires Mapped(chip, regs) && !next.Unknown?
  {
    var enabled := Put(regs, ENABLE, Enabling(next));
    if next.Init? then Put(Put(enabled, ALWAYS, 0x1), Control(chip), Setting(chip)) else enabled
  }

  /** An adapter: its kind, its registers and where its counters are. */
  datatype Adapter = Adapter(chip: Chip, regs: Registers, state: UtilState)

  /** Once the state is known the enable field tells it and the configuration is in place. */
  predicate Settled(a: Adapter) {
    Mapped(a.chip, a.regs)
    && (!a.state.Unknown? ==>
          Get(a.regs, ENABLE) == Enabling(a.state)
          && Get(a.regs, ALWAYS) == 0x1
          && Get(a.regs, Control(a.chip)) == Setting(a.chip))
  }

  /** What an adapter reads back after the registers have been programmed. */
  ghost predicate Reads(chip: Chip, before: Registers, after: Registers, next: UtilState) {
    && Mapped(chip, before) && Undisturbed(chip, before, after)
    && Get(after, ENABLE) == Enabling(next)
    && Get(after, ALWAYS) == (if next.Init? then 0x1 else Get(before, ALWAYS))
    && Get(after, Control(chip)) == (if next.Init? then Setting(chip) else Get(before, Control(chip)))
  }

  lemma ProgrammedReads(chip: Chip, regs: Registers, next: UtilState)
    requires Mapped(chip, regs) && !next.Unknown?
    ensures Reads(chip, regs, Programmed(chip, regs, next), next)
  {
    hide Extracted, Written, Covered, Except, Sound, Fits, Get, Put, Setting;
    FieldsSound(chip);
    PutField(chip, regs, ENABLE, Enabling(next));
    if next.Init? {
      InitReads(chip, Put(regs, ENABLE, Enabling(next)));
    }
  }

  lemma InitReads(chip: Chip, regs: Registers)
    requires Mapped(chip, regs)
    ensures Mapped(chip, Put(regs, ALWAYS, 0x1))
    ensures var after := Put(Put(regs, ALWAYS, 0x1), Control(chip), Setting(chip));
      && Undisturbed(chip, regs, after) && Get(after, ENABLE) == Get(regs, ENABLE)
      && Get(after, ALWAYS) == 0x1 && Get(after, Control(chip)) == Setting(chip)
  {
    hide Extracted, Written, Covered, Except, Sound, Fits, Get, Put, Setting;
    FieldsSound(chip);
    PutField(chip, regs, ALWAYS, 0x1);
    PutField(chip, Put(regs, ALWAYS, 0x1), Control(chip), Setting(chip));
  }

  lemma ProgrammedSettles(a: Adapter, next: UtilState)
    requires Settled(a) && Permitted(a.state, next)
    ensures Settled(Adapter(a.chip, Programmed(a.chip, a.regs, next), next))
    ensures Undisturbed(a.chip, a.regs, Programmed(a.chip, a.regs, next))
  {
    hide Extracted, Covered, Except, Get, Programmed, Setting, Enabling;
    ProgrammedReads(a.chip, a.regs, next);
  }

  /** A field read at the place of the first bit, and the one field that is elsewhere. */
  lemma FieldWords(x: bv64, offset: nat)
    ensures Extracted(x, Field(offset, 0, 0xf)) == x & 0xf && Extracted(x, Field(offset, 0, 0x1)) == x & 0x1
    ensures Extracted(x, Field(offset, 0, ONES)) == x
  {
  }

  lemma LowWord(x: bv64, offset: nat)
    ensures var low := Extracted(x, Field(offset, 0, 0xffff_ffff_ffff));
      low == x & 0xffff_ffff_ffff
  {
  }

  /** What is read of timer and counter, in the words of the registers. */
  lemma LowWords(chip: Chip, regs: Registers)
    requires Mapped(chip, regs)
    ensures var timer, counter := Get(regs, Timer(chip)), Get(regs, Counter(chip));
      match chip
         case Apollo => (timer == regs[0x550] & 0xffff_ffff_ffff && counter == regs[0x558] & 0xffff_ffff_ffff)
         case Gemini => (timer == regs[0x530] & 0xffff_ffff_ffff && counter == regs[0x538] & 0xffff_ffff_ffff)
         case Mercury => (timer == regs[0x518] & 0xffff_ffff_ffff && counter == regs[0x520] & 0xffff_ffff_ffff)
  {
    hide Extracted;
    match chip {
      case Apollo =>
        LowWord(regs[0x550], 0x550);
        LowWord(regs[0x558], 0x558);
      case Gemini =>
        LowWord(regs[0x530], 0x530);
        LowWord(regs[0x538], 0x538);
      case Mercury =>
        LowWord(regs[0x518], 0x518);
        LowWord(regs[0x520], 0x520);
    }
  }

  lemma ShiftedWord(x: bv64, offset: nat)
    ensures Extracted(x, Field(offset, 33, 0x3)) == (x >> 33) & 0x3
  {
    ShiftsAre(x);
    hide Right;
  }

  /** The same in the words of the registers. */
  lemma SettledWords(r: Adapter)
    requires Settled(r)
    ensures (r.state != Unknown ==>
          && 0x500 in r.regs && r.regs[0x500] & 0xf == (match r.state case Reset => 0xf case Start => 0x3 case _ => 0)
          && 0x508 in r.regs && r.regs[0x508] & 0x1 == 0x1
          && match r.chip
             case Apollo => 0x538 in r.regs && (r.regs[0x538] >> 33) & 0x3 == 0x3
             case Gemini => 0x528 in r.regs && r.regs[0x528] == 0x7979_00ff_001f_043c
             case Mercury => 0x510 in r.regs && r.regs[0x510] == 0x7979_00ff_001f_043c)
  {
    hide Extracted;
    if r.state != Unknown {
      FieldWords(r.regs[0x500], 0x500);
      FieldWords(r.regs[0x508], 0x508);
      ControlWord(r);
    }
  }

  lemma ControlWord(r: Adapter)
    requires Mapped(r.chip, r.regs) && Get(r.regs, Control(r.chip)) == Setting(r.chip)
    ensures match r.chip
      case Apollo => 0x538 in r.regs && (r.regs[0x538] >> 33) & 0x3 == 0x3
      case Gemini => 0x528 in r.regs && r.regs[0x528] == 0x7979_00ff_001f_043c
      case Mercury => 0x510 in r.regs && r.regs[0x510] == 0x7979_00ff_001f_043c
  {
    hide Extracted;
    match r.chip
    case Apollo => ShiftedWord(r.regs[0x538], 0x538);
    case Gemini => FieldWords(r.regs[0x528], 0x528);
    case Mercury => FieldWords(r.regs[0x510], 0x510);
  }

  // ----- commands

  function Name(state: UtilState): string {
    match state
    case Init => "init" case Reset => "reset" case Start => "start" case Stop => "stop"
    case Unknown => "unknown"
  }

  /** The text begins with the name of the state, and then ends or its line does. */
  predicate Names(text: string, state: UtilState) {
    var name := Name(state);
    name <= text && (|text| == |name| || text[|name|] in {'\n', '\0'})
  }

  function StateOf(text: string): UtilState {
    if Names(text, Init) then Init
    else if Names(text, Reset) then Reset
    else if Names(text, Start) then Start
    else if Names(text, Stop) then Stop
    else Unknown
  }

  const TABLE := [Init, Reset, Start, Stop, Unknown]

  /** What may follow a state's name, and what may not. */
  lemma TextNames(s: UtilState, c: char, rest: string)
    requires s != Unknown
    ensures StateOf(Name(s)) == s && StateOf(Name(s) + "\n" + rest) == s && StateOf(Name(s) + "\0" + rest) == s
    ensures c != '\n' && c != '\0' ==> StateOf(Name(s) + [c] + rest) == Unknown
  {
    OneName(Name(s), s);
    OneName(Name(s) + "\n" + rest, s);
    OneName(Name(s) + "\0" + rest, s);
    OneName(Name(s) + [c] + rest, s);
  }

  /** A text that begins with the name of s can only name s. */
  lemma OneName(text: string, s: UtilState)
    requires Name(s) <= text
    ensures forall t {:trigger Names(text, t)} | Names(text, t) :: t == s
  {
    forall t {:trigger Names(text, t)} | Names(text, t) ensures t == s {
      assert text[0] == Name(s)[0] && text[2] == Name(s)[2];
      assert text[0] == Name(t)[0] && text[2] == Name(t)[2];
    }
  }

  /** The order of the table does not matter, as no text names two states. */
  lemma NamesOne(text: string, s: UtilState)
    ensures Names(text, s) ==> StateOf(text) == s
    ensures StateOf(text) == s ==> s.Unknown? || Names(text, s)
    ensures StateOf(Name(s)) == s
  {
    assert forall t | Names(text, t) :: text[0] == Name(t)[0] && text[2] == Name(t)[2];
    assert Names(Name(s), s);
    assert forall t | Names(Name(s), t) :: Name(s)[0] == Name(t)[0] && Name(s)[2] == Name(t)[2];
  }

  method UtilStateToValue(name: string) returns (state: UtilState)
    ensures state == StateOf(name)
  {
    var i := 0;
    while i < |TABLE|
      invariant 0 <= i <= |TABLE|
      invariant forall j | 0 <= j < i :: !Names(name, TABLE[j])
    {
      NamesOne(name, TABLE[i]);
      var length := |Name(TABLE[i])|;
      if length <= |name| && name[..length] == Name(TABLE[i]) && (|name| == length || name[length] == '\n' || name[length] == '\0') {
        return TABLE[i];
      }
      i := i + 1;
    }
    assert !Names(name, TABLE[0]) && !Names(name, TABLE[1]) && !Names(name, TABLE[2]) && !Names(name, TABLE[3]);
    return Unknown;
  }

  // ----- runs

  /** What can happen to an adapter: a text is written to its attribute, or the hardware counts. */
  datatype Event = Store(text: string) | Count(timer: bv64, counter: bv64)

  predicate Accepts(a: Adapter, text: string) {
    Permitted(a.state, StateOf(text))
  }

  function Step(a: Adapter, e: Event): (r: Adapter)
    requires Mapped(a.chip, a.regs)
    ensures r.chip == a.chip && Mapped(r.chip, r.regs)
  {
    match e
    case Store(text) =>
      var next := StateOf(text);
      if Accepts(a, text) then Adapter(a.chip, Programmed(a.chip, a.regs, next), next) else a
    case Count(timer, counter) =>
      a.(regs := a.regs[Timer(a.chip).offset := timer][Counter(a.chip).offset := counter])
  }

  lemma StepSettles(a: Adapter, e: Event)
    requires Settled(a)
    ensures Settled(Step(a, e)) && Step(a, e).chip == a.chip
    ensures Undisturbed(a.chip, a.regs, Step(a, e).regs)
  {
    if e.Store? {
      hide Settled, Programmed, Undisturbed;
      Undisturbing(a.chip, a.regs);
      if Accepts(a, e.text) {
        ProgrammedSettles(a, StateOf(e.text));
      }
    } else {
      CountSettles(a, e.timer, e.counter);
    }
  }

  lemma Undisturbing(chip: Chip, regs: Registers)
    ensures Undisturbed(chip, regs, regs)
  {
  }

  lemma CountSettles(a: Adapter, timer: bv64, counter: bv64)
    requires Settled(a)
    ensures var r := Step(a, Count(timer, counter));
      Settled(r) && Undisturbed(a.chip, a.regs, r.regs)
  {
    hide Extracted, Covered, Enabling, Setting;
    Whole(a.regs[Timer(a.chip).offset]);
    Whole(a.regs[Counter(a.chip).offset]);
    Whole(timer);
    Whole(counter);
  }

  lemma UndisturbedTrans(chip: Chip, a: Registers, b: Registers, c: Registers)
    requires Undisturbed(chip, a, b) && Undisturbed(chip, b, c)
    ensures Undisturbed(chip, a, c)
  {
  }

  function Run(a: Adapter, events: seq<Event>): (r: Adapter)
    requires Mapped(a.chip, a.regs)
    ensures r.chip == a.chip && Mapped(r.chip, r.regs)
  {
    if events == [] then a else Step(Run(a, events[..|events| - 1]), events[|events| - 1])
  }

  /** Whatever is written to the attribute and whatever the hardware counts, in any order:
      the enable field tells the state, the configuration stays in place, and no bit that
      the driver does not own changes. */
  lemma {:induction false} RunSettles(a: Adapter, events: seq<Event>)
    requires Settled(a)
    ensures Settled(Run(a, events))
    ensures Undisturbed(a.chip, a.regs, Run(a, events).regs)
    ensures var r := Run(a, events);
      (r.state != Unknown ==>
          && 0x500 in r.regs && r.regs[0x500] & 0xf == (match r.state case Reset => 0xf case Start => 0x3 case _ => 0)
          && 0x508 in r.regs && r.regs[0x508] & 0x1 == 0x1
          && match r.chip
             case Apollo => 0x538 in r.regs && (r.regs[0x538] >> 33) & 0x3 == 0x3
             case Gemini => 0x528 in r.regs && r.regs[0x528] == 0x7979_00ff_001f_043c
             case Mercury => 0x510 in r.regs && r.regs[0x510] == 0x7979_00ff_001f_043c)
  {
    hide Extracted, Get, Undisturbed, Step, Enabling, Setting;
    Undisturbing(a.chip, a.regs);
    if events != [] {
      RunSettles(a, events[..|events| - 1]);
      StepSettles(Run(a, events[..|events| - 1]), events[|events| - 1]);
      UndisturbedTrans(a.chip, a.regs, Run(a, events[..|events| - 1]).regs, Run(a, events).regs);
    }
    SettledWords(Run(a, events));
  }

  /** The commands that were accepted. */
  function Accepted(a: Adapter, events: seq<Event>): seq<UtilState>
    requires Mapped(a.chip, a.regs)
  {
    if events == [] then []
    else
      var before := events[..|events| - 1];
      var last := events[|events| - 1];
      if last.Store? && Accepts(Run(a, before), last.text)
      then Accepted(a, before) + [StateOf(last.text)]
      else Accepted(a, before)
  }

  /** The command was accepted and none of the wiping ones has been since. */
  predicate Since(commands: seq<UtilState>, want: UtilState, wiping: set<UtilState>) {
    exists i :: 0 <= i < |commands| && commands[i] == want && forall j | i < j < |commands| :: commands[j] !in wiping
  }

  lemma SinceMore(commands: seq<UtilState>, c: UtilState, want: UtilState, wiping: set<UtilState>)
    requires want !in wiping
    ensures Since(commands + [c], want, wiping) <==> c == want || (c !in wiping && Since(commands, want, wiping))
  {
    var more := commands + [c];
    assert more[|commands|] == c;
    if c == want || (c !in wiping && Since(commands, want, wiping)) {
      var i := if c == want then |commands| else SinceAt(commands, want, wiping);
      assert more[i] == want;
    }
    if c != want && Since(more, want, wiping) {
      var i := SinceAt(more, want, wiping);
      assert commands[i] == want;
      assert forall j | i < j < |commands| :: commands[j] == more[j];
    }
  }

  ghost function SinceAt(commands: seq<UtilState>, want: UtilState, wiping: set<UtilState>): (i: nat)
    requires Since(commands, want, wiping)
    ensures i < |commands| && commands[i] == want && forall j | i < j < |commands| :: commands[j] !in wiping
  {
    var i :| 0 <= i < |commands| && commands[i] == want && forall j | i < j < |commands| :: commands[j] !in wiping;
    i
  }

  /** A command that has been accepted is the state; and from power on a start is accepted
      exactly when there was a reset after the last init, a stop exactly when there was a
      start after the last init or reset. */
  lemma {:induction false} AcceptedInOrder(a: Adapter, events: seq<Event>)
    requires Mapped(a.chip, a.regs) && a.state.Unknown?
    ensures var r, done := Run(a, events), Accepted(a, events);
      && r.state == (if done == [] then Unknown else done[|done| - 1])
      && !Accepts(r, Name(Unknown)) && Accepts(r, Name(Init))
      && (Accepts(r, Name(Reset)) <==> done != [])
      && (Accepts(r, Name(Start)) <==> Since(done, Reset, {Init}))
      && (Accepts(r, Name(Stop)) <==> Since(done, Start, {Init, Reset}))
  {
    hide Names, Programmed, Since;
    forall s: UtilState ensures StateOf(Name(s)) == s {
      NamesOne("", s);
    }
    if events == [] {
      SinceNone();
    } else {
      var before := events[..|events| - 1];
      var e := events[|events| - 1];
      AcceptedInOrder(a, before);
      if e.Store? {
        SinceMore(Accepted(a, before), StateOf(e.text), Reset, {Init});
        SinceMore(Accepted(a, before), StateOf(e.text), Start, {Init, Reset});
      }
    }
  }

  lemma SinceNone()
    ensures !Since([], Reset, {Init}) && !Since([], Start, {Init, Reset})
  {
  }

  // ----- the driver

  class Lba {
    const chip: Chip
    var regs: Registers
    var utilState: UtilState

    constructor (chip: Chip, regs: Registers)
      requires Mapped(chip, regs)
      ensures Value() == Adapter(chip, regs, Unknown) && Valid()
    {
      this.chip := chip;
      this.regs := regs;
      utilState := Unknown;
    }

    ghost function Value(): Adapter
      reads this
    {
      Adapter(chip, regs, utilState)
    }

    ghost predicate Valid()
      reads this
    {
      Settled(Value())
    }

    /** LBA_REG_WRITE */
    method Write(f: Field, value: bv64)
      requires f.offset in regs
      modifies this`regs
      ensures regs == Put(old(regs), f, value)
    {
      var contents := Xor(Except(regs[f.offset], Covered(f)), Left(value, f.shift));
      regs := regs[f.offset := contents];
    }

    method UtilInit()
      requires Mapped(chip, regs)
      modifies this`regs
      ensures Reads(chip, old(regs), regs, Init) && regs == Programmed(chip, old(regs), Init)
    {
      ProgrammedReads(chip, regs, Init);
      Write(ENABLE, 0);
      Write(ALWAYS, 0x1);
      if chip.Apollo? {
        Write(Control(chip), 0x3);
      } else {
        Write(Control(chip), 0x7979_00ff_001f_043c);
      }
    }

    method UtilReset()
      requires Mapped(chip, regs)
      modifies this`regs
      ensures Reads(chip, old(regs), regs, Reset) && regs == Programmed(chip, old(regs), Reset)
    {
      ProgrammedReads(chip, regs, Reset);
      Write(ENABLE, 0xf);
    }

    method UtilStart()
      requires Mapped(chip, regs)
      modifies this`regs
      ensures Reads(chip, old(regs), regs, Start) && regs == Programmed(chip, old(regs), Start)
    {
      ProgrammedReads(chip, regs, Start);
      Write(ENABLE, 0x3);
    }

    method UtilStop()
      requires Mapped(chip, regs)
      modifies this`regs
      ensures Reads(chip, old(regs), regs, Stop) && regs == Programmed(chip, old(regs), Stop)
    {
      ProgrammedReads(chip, regs, Stop);
      Write(ENABLE, 0x0);
    }

    /** set_util_state */
    method SetUtilState(next: UtilState) returns (ret: int)
      requires Valid()
      modifies this`regs, this`utilState
      ensures Valid()
      ensures ret == if Permitted(old(utilState), next) then 0 else -EINVAL
      ensures utilState == if ret == 0 then next else old(utilState)
      ensures regs == if ret == 0 then Programmed(chip, old(regs), next) else old(regs)
      ensures ret == 0 || ret == -22
      ensures ret == 0 ==>
        && 0x500 in regs && regs[0x500] & 0xf == (match next case Reset => 0xf case Start => 0x3 case _ => 0)
        && 0x508 in regs && regs[0x508] & 0x1 == 0x1
        && match chip
           case Apollo => 0x538 in regs && (regs[0x538] >> 33) & 0x3 == 0x3
           case Gemini => 0x528 in regs && regs[0x528] == 0x7979_00ff_001f_043c
           case Mercury => 0x510 in regs && regs[0x510] == 0x7979_00ff_001f_043c
    {
      hide Put, Get, Programmed, Enabling, Setting;
      ret := 0;
      match next {
        case Init =>
          match utilState {
            case Unknown | Init | Reset | Start | Stop =>
          }
        case Reset =>
          match utilState {
            case Init | Reset | Start | Stop =>
            case Unknown => ret := -EINVAL;
          }
        case Start =>
          match utilState {
            case Unknown | Init => ret := -EINVAL;
            case Reset | Start | Stop =>
          }
        case Stop =>
          match utilState {
            case Unknown | Init | Reset => ret := -EINVAL;
            case Start | Stop =>
          }
        case Unknown =>
          ret := -EINVAL;
      }
      if ret < 0 {
        return;
      }
      ProgrammedSettles(Value(), next);
      SettledWords(Adapter(chip, Programmed(chip, regs, next), next));
      utilState := next;
      match next {
        case Init => UtilInit();
        case Reset => UtilReset();
        case Start => UtilStart();
        case Stop => UtilStop();
      }
    }

    /** utilization_store */
    method UtilizationStore(text: string) returns (ret: int)
      requires Valid()
      modifies this`regs, this`utilState
      ensures Valid()
      ensures Value() == Step(old(Value()), Store(text))
      ensures ret == if Accepts(old(Value()), text) then |text| else -22
    {
      hide Settled, Programmed;
      var next := UtilStateToValue(text);
      if next.Unknown? {
        return -EINVAL;
      }
      ret := SetUtilState(next);
      if ret == 0 {
        ret := |text|;
      }
    }

    /** The hardware counts: only these two registers are its to change. */
    method Hardware(timer: bv64, counter: bv64)
      requires Valid()
      modifies this`regs
      ensures Valid()
      ensures Value() == Step(old(Value()), Count(timer, counter))
      ensures match chip
        case Apollo => regs == old(regs)[0x550 := timer][0x558 := counter]
        case Gemini => regs == old(regs)[0x530 := timer][0x538 := counter]
        case Mercury => regs == old(regs)[0x518 := timer][0x520 := counter]
    {
      CountSettles(Value(), timer, counter);
      regs := regs[Timer(chip).offset := timer][Counter(chip).offset := counter];
    }

    /** apollo_utilization and its likes */
    method Utilization() returns (timer: bv64, counter: bv64)
      requires Valid()
      ensures timer == Get(regs, Timer(chip)) && counter == Get(regs, Counter(chip))
      ensures match chip
        case Apollo => ({0x550, 0x558} <= regs.Keys &&
          timer == regs[0x550] & 0xffff_ffff_ffff && counter == regs[0x558] & 0xffff_ffff_ffff)
        case Gemini => ({0x530, 0x538} <= regs.Keys &&
          timer == regs[0x530] & 0xffff_ffff_ffff && counter == regs[0x538] & 0xffff_ffff_ffff)
        case Mercury => ({0x518, 0x520} <= regs.Keys &&
          timer == regs[0x518] & 0xffff_ffff_ffff && counter == regs[0x520] & 0xffff_ffff_ffff)
    {
      hide And, Xor, Right;
      LowWords(chip, regs);
      timer := And(Right(regs[Timer(chip).offset], Timer(chip).shift), Timer(chip).mask);
      counter := And(Right(regs[Counter(chip).offset], Counter(chip).shift), Counter(chip).mask);
    }
  }
}
