/** The 9:20 straddle: its latch per symbol, and the strategy object that keeps them. */
module NineTwenty {
  import opened Common

  // An IST calendar day, and a time of that day.
  datatype Moment = Moment(day: int, hour: int, minute: int, nanos: int)

  datatype Action = Hold | Sell | Exit

  datatype Leg = Leg(side: Side, strikeOffset: int, optionType: string, quantity: int)

  datatype Signal = Signal(action: Action, legs: seq<Leg>)

  const STRADDLE := Signal(Action.Sell, [Leg(Side.Sell, 0, "CE", 1), Leg(Side.Sell, 0, "PE", 1)])
  const HOLD := Signal(Hold, [])
  const EXIT := Signal(Exit, [])

  datatype Params = Params(entryHour: int, entryMinute: int, squareOffHour: int, squareOffMinute: int, stopMultiplier: real)

  datatype Context = Context(symbol: Symbol, now: Moment, hasPosition: bool, entryPremium: real, lastPrice: Option<real>)

  // What the strategy believes about one symbol.
  datatype Latch = Latch(entered: bool, pendingExit: bool, signaledEntry: bool, lastDate: Option<Moment>, entryPremium: real)

  const BLANK := Latch(false, false, false, None, 0.0)

  // ---- One symbol ----

  predicate SameDate(last: Option<Moment>, now: Moment) {
    last.Some? && last.value.day == now.day
  }

  function EffectiveMultiplier(p: Params): real {
    if p.stopMultiplier <= 0.0 then 1.4 else p.stopMultiplier
  }

  // A zero parameter means its default.
  function WithDefaults(given: Params): Params {
    Params(if given.entryHour == 0 then 9 else given.entryHour,
           if given.entryMinute == 0 then 20 else given.entryMinute,
           if given.squareOffHour == 0 then 15 else given.squareOffHour,
           if given.squareOffMinute == 0 then 15 else given.squareOffMinute,
           if given.stopMultiplier == 0.0 then 1.4 else given.stopMultiplier)
  }

  predicate InEntryWindow(p: Params, now: Moment) {
    now.hour == p.entryHour && p.entryMinute <= now.minute < p.entryMinute + 5
  }

  predicate SquareOffTime(p: Params, now: Moment) {
    now.hour > p.squareOffHour || (now.hour == p.squareOffHour && now.minute >= p.squareOffMinute)
  }

  // The latch at the start of an evaluation: a new day wipes it.
  function Today(l: Latch, now: Moment): Latch {
    if SameDate(l.lastDate, now) then l else BLANK.(lastDate := Some(now))
  }

  predicate StopHit(p: Params, premium: real, price: Option<real>) {
    premium > 0.0 && price.Some? && price.value >= premium * EffectiveMultiplier(p)
  }

  function Evaluated(p: Params, l: Latch, ctx: Context): (Latch, Signal) {
    var t := Today(l, ctx.now);
    if !(ctx.hasPosition || t.entered) then
      if !t.signaledEntry && InEntryWindow(p, ctx.now) then (t.(signaledEntry := true), STRADDLE) else (t, HOLD)
    else Monitored(p, t, ctx)
  }

  // In position: one exit signal, on the premium stop or at square-off time.
  function Monitored(p: Params, t: Latch, ctx: Context): (Latch, Signal) {
    if t.pendingExit then (t, HOLD)
    else
      var u := if ctx.entryPremium > 0.0 then t.(entryPremium := ctx.entryPremium) else t;
      if StopHit(p, u.entryPremium, ctx.lastPrice) || SquareOffTime(p, ctx.now) then (u.(pendingExit := true), EXIT)
      else (u, HOLD)
  }

  function EntryConfirmed(l: Latch): Latch {
    l.(entered := true, signaledEntry := false)
  }

  function ExitConfirmed(l: Latch): Latch {
    l.(entered := false, pendingExit := false, entryPremium := 0.0)
  }

  // ---- Snapshots ----

  const SEP := '|'

  datatype Field = Entered | PendingExit | SignaledEntry | LastDate | EntryPremium

  // A stored value; a date is kept to the day, and none when there is no date.
  datatype Value = Flag(on: bool) | Date(day: Option<int>) | Amount(amount: real) | Malformed

  type Snapshot = map<string, Value>

  function FieldName(f: Field): string {
    match f
    case Entered => "entered"
    case PendingExit => "pending_exit"
    case SignaledEntry => "signaled_entry"
    case LastDate => "last_date"
    case EntryPremium => "entry_premium"
  }

  function Key(symbol: Symbol, f: Field): string {
    symbol + [SEP] + FieldName(f)
  }

  // The text before and after the first separator.
  function Cut(key: string): (r: Option<(string, string)>)
    ensures SEP !in key ==> r.None?
    ensures r.Some? ==> key == r.value.0 + [SEP] + r.value.1 && SEP !in r.value.0
  {
    if key == "" then None
    else if key[0] == SEP then
      assert key == "" + [SEP] + key[1..];
      Some(("", key[1..]))
    else
      match Cut(key[1..])
      case None => None
      case Some((before, after)) =>
        assert key == [key[0]] + key[1..];
        Some(([key[0]] + before, after))
  }

  lemma {:induction false} CutAtFirst(before: string, after: string)
    requires SEP !in before
    ensures Cut(before + [SEP] + after) == Some((before, after))
  {
    var key := before + [SEP] + after;
    if before == "" {
      assert key[1..] == after;
    } else {
      assert key[1..] == before[1..] + [SEP] + after;
      CutAtFirst(before[1..], after);
      assert before == [before[0]] + before[1..];
    }
  }

  lemma FieldNames(f: Field, g: Field)
    ensures SEP !in FieldName(f)
    ensures FieldName(f) == FieldName(g) ==> f == g
  {
  }

  function FieldNamed(name: string): (f: Option<Field>)
    ensures f.Some? ==> name == FieldName(f.value)
    ensures f.None? ==> forall g :: FieldName(g) != name
  {
    if name == "entered" then Some(Entered)
    else if name == "pending_exit" then Some(PendingExit)
    else if name == "signaled_entry" then Some(SignaledEntry)
    else if name == "last_date" then Some(LastDate)
    else if name == "entry_premium" then Some(EntryPremium)
    else None
  }

  // Two symbols share no key, whatever characters are in them.
  lemma KeysDistinct(s: Symbol, f: Field, t: Symbol, g: Field)
    requires Key(s, f) == Key(t, g)
    ensures s == t && f == g
  {
    FieldNames(f, g);
    FieldNames(g, f);
    var k := Key(s, f);
    LastSeparator(k, |s|, FieldName(f));
    LastSeparator(k, |t|, FieldName(g));
    assert k[|s| + 1..] == FieldName(f) && k[|t| + 1..] == FieldName(g);
    assert k[|s|] == SEP && k[|t|] == SEP;
    assert |s| == |t|;
    assert k[..|s|] == s && k[..|t|] == t;
  }

  lemma LastSeparator(k: string, n: nat, name: string)
    requires n < |k| && k[n + 1..] == name && SEP !in name
    ensures forall i :: n < i < |k| ==> k[i] != SEP
  {
    forall i | n < i < |k|
      ensures k[i] != SEP
    {
      assert k[i] == name[i - n - 1];
    }
  }

  function Written(l: Latch, f: Field): Value {
    match f
    case Entered => Flag(l.entered)
    case PendingExit => Flag(l.pendingExit)
    case SignaledEntry => Flag(l.signaledEntry)
    case LastDate => Date(if l.lastDate.None? then None else Some(l.lastDate.value.day))
    case EntryPremium => Amount(l.entryPremium)
  }

  // A latch with one stored value read back into it; what does not parse is ignored.
  function ReadField(l: Latch, f: Field, v: Value): Latch {
    match (f, v)
    case (Entered, Flag(b)) => l.(entered := b)
    case (PendingExit, Flag(b)) => l.(pendingExit := b)
    case (SignaledEntry, Flag(b)) => l.(signaledEntry := b)
    case (LastDate, Date(Some(day))) => l.(lastDate := Some(Moment(day, 0, 0, 0)))
    case (EntryPremium, Amount(x)) => l.(entryPremium := x)
    case _ => l
  }

  // What a snapshot holds for a field; keys are cut at their first separator, so nothing is
  // ever found for a symbol that contains one.
  function Stored(snap: Snapshot, symbol: Symbol, f: Field): Value {
    if SEP !in symbol && Key(symbol, f) in snap then snap[Key(symbol, f)] else Malformed
  }

  // A latch with everything a snapshot says about its symbol.
  function Overlay(l: Latch, snap: Snapshot, symbol: Symbol): Latch {
    Latch(ReadField(l, Entered, Stored(snap, symbol, Entered)).entered,
          ReadField(l, PendingExit, Stored(snap, symbol, PendingExit)).pendingExit,
          ReadField(l, SignaledEntry, Stored(snap, symbol, SignaledEntry)).signaledEntry,
          ReadField(l, LastDate, Stored(snap, symbol, LastDate)).lastDate,
          ReadField(l, EntryPremium, Stored(snap, symbol, EntryPremium)).entryPremium)
  }

  // ---- The strategy object's fields, as one value ----

  datatype Latches = Latches(
    entered: map<Symbol, bool>,
    pendingExit: map<Symbol, bool>,
    signaledEntry: map<Symbol, bool>,
    lastDate: map<Symbol, Moment>,
    entryPremium: map<Symbol, real>)
  {
    // A symbol never met reads as blank.
    function Of(symbol: Symbol): Latch {
      Latch(symbol in entered && entered[symbol],
            symbol in pendingExit && pendingExit[symbol],
            symbol in signaledEntry && signaledEntry[symbol],
            if symbol in lastDate then Some(lastDate[symbol]) else None,
            if symbol in entryPremium then entryPremium[symbol] else 0.0)
    }

    predicate Met(s: Symbol) {
      s in entered || s in pendingExit || s in signaledEntry || s in lastDate || s in entryPremium
    }

    // Snapshots walk `entered`, so every symbol met must be there.
    ghost predicate Covered() {
      forall s :: Met(s) ==> s in entered
    }
  }

  // A snapshot holds exactly the five fields of every symbol met.
  ghost predicate IsSnapshot(st: Latches, snap: Snapshot) {
    && (forall s, f :: s in st.entered ==> Key(s, f) in snap && snap[Key(s, f)] == Written(st.Of(s), f))
    && (forall k :: k in snap ==> exists s, f :: s in st.entered && k == Key(s, f))
  }

  // Wherever a snapshot has a field of a symbol it has its entered flag.
  ghost predicate WholeLatches(snap: Snapshot) {
    forall s, f :: SEP !in s && Key(s, f) in snap ==> Key(s, Entered) in snap && snap[Key(s, Entered)].Flag?
  }

  // While a snapshot is read: symbols met before, or found in what was read, and those whose
  // flag was read are in `entered`.
  ghost predicate CoveredBut(st: Latches, was: Latches, read: Snapshot) {
    && was.entered.Keys <= st.entered.Keys
    && (forall s :: st.Met(s) ==> was.Met(s) || (SEP !in s && exists f :: Key(s, f) in read))
    && (forall s :: SEP !in s && Key(s, Entered) in read && read[Key(s, Entered)].Flag? ==> s in st.entered)
  }

  lemma CoveredAtLast(st: Latches, was: Latches, read: Snapshot)
    requires was.Covered() && CoveredBut(st, was, read) && WholeLatches(read)
    ensures st.Covered()
  {
    forall s | st.Met(s)
      ensures s in st.entered
    {
      if !was.Met(s) {
        var f :| Key(s, f) in read;
        assert Key(s, Entered) in read;
      }
    }
  }

  lemma SnapshotsAreWhole(st: Latches, snap: Snapshot)
    requires IsSnapshot(st, snap)
    ensures WholeLatches(snap)
  {
    forall s, f | SEP !in s && Key(s, f) in snap
      ensures Key(s, Entered) in snap && snap[Key(s, Entered)].Flag?
    {
      var t, g :| t in st.entered && Key(s, f) == Key(t, g);
      KeysDistinct(s, f, t, g);
    }
  }

  class Strategy {
    const p: Params
    var entered: map<Symbol, bool>
    var pendingExit: map<Symbol, bool>
    var signaledEntry: map<Symbol, bool>
    var lastDate: map<Symbol, Moment>
    var entryPremium: map<Symbol, real>

    function View(): Latches
      reads this
    {
      Latches(entered, pendingExit, signaledEntry, lastDate, entryPremium)
    }

    constructor (given: Params)
      ensures p == WithDefaults(given)
      ensures p.entryHour == (if given.entryHour == 0 then 9 else given.entryHour)
      ensures p.entryMinute == (if given.entryMinute == 0 then 20 else given.entryMinute)
      ensures p.squareOffHour == (if given.squareOffHour == 0 then 15 else given.squareOffHour)
      ensures p.squareOffMinute == (if given.squareOffMinute == 0 then 15 else given.squareOffMinute)
      ensures p.stopMultiplier == (if given.stopMultiplier == 0.0 then 1.4 else given.stopMultiplier)
      ensures View() == Latches(map[], map[], map[], map[], map[])
    {
      p := WithDefaults(given);
      entered, pendingExit, signaledEntry := map[], map[], map[];
      lastDate, entryPremium := map[], map[];
    }

    method StartOfDay(sym: Symbol, now: Moment)
      modifies this
      ensures old(View().Covered()) ==> View().Covered()
      ensures View().Of(sym) == Today(old(View()).Of(sym), now)
      ensures old(View().Covered()) ==> sym in entered
      ensures forall s: Symbol :: s != sym ==> View().Of(s) == old(View()).Of(s)
    {
      if !(sym in lastDate && lastDate[sym].day == now.day) {
        entered := entered[sym := false];
        pendingExit := pendingExit[sym := false];
        signaledEntry := signaledEntry[sym := false];
        entryPremium := entryPremium[sym := 0.0];
        lastDate := lastDate[sym := now];
      }
    }

    method Evaluate(ctx: Context) returns (signal: Signal)
      modifies this
      ensures old(View().Covered()) ==> View().Covered()
      ensures (View().Of(ctx.symbol), signal) == Evaluated(p, old(View()).Of(ctx.symbol), ctx)
      ensures forall s: Symbol :: s != ctx.symbol ==> View().Of(s) == old(View()).Of(s)
    {
      var sym, now := ctx.symbol, ctx.now;
      StartOfDay(sym, now);
      var inPosition := ctx.hasPosition || View().Of(sym).entered;
      if !inPosition {
        if !View().Of(sym).signaledEntry && InEntryWindow(p, now) {
          signaledEntry := signaledEntry[sym := true];
          return STRADDLE;
        }
        return HOLD;
      }
      signal := Monitor(ctx);
    }

    method Monitor(ctx: Context) returns (signal: Signal)
      modifies this`pendingExit, this`entryPremium
      ensures old(View().Covered()) && ctx.symbol in entered ==> View().Covered()
      ensures (View().Of(ctx.symbol), signal) == Monitored(p, old(View()).Of(ctx.symbol), ctx)
      ensures forall s: Symbol :: s != ctx.symbol ==> View().Of(s) == old(View()).Of(s)
    {
      var sym, now := ctx.symbol, ctx.now;
      if sym in pendingExit && pendingExit[sym] {
        return HOLD;
      }
      if ctx.entryPremium > 0.0 {
        entryPremium := entryPremium[sym := ctx.entryPremium];
      }
      var premium := if sym in entryPremium then entryPremium[sym] else 0.0;
      if premium > 0.0 && ctx.lastPrice.Some? {
        var stopLevel := premium * EffectiveMultiplier(p);
        if ctx.lastPrice.value >= stopLevel {
          pendingExit := pendingExit[sym := true];
          return EXIT;
        }
      }
      if SquareOffTime(p, now) {
        pendingExit := pendingExit[sym := true];
        return EXIT;
      }
      return HOLD;
    }

    method ConfirmEntry(symbol: Symbol)
      modifies this
      ensures old(View().Covered()) ==> View().Covered()
      ensures View().Of(symbol) == EntryConfirmed(old(View()).Of(symbol))
      ensures forall s: Symbol :: s != symbol ==> View().Of(s) == old(View()).Of(s)
    {
      entered := entered[symbol := true];
      signaledEntry := signaledEntry[symbol := false];
    }

    method ConfirmExit(symbol: Symbol)
      modifies this
      ensures old(View().Covered()) ==> View().Covered()
      ensures View().Of(symbol) == ExitConfirmed(old(View()).Of(symbol))
      ensures forall s: Symbol :: s != symbol ==> View().Of(s) == old(View()).Of(s)
    {
      entered := entered[symbol := false];
      pendingExit := pendingExit[symbol := false];
      entryPremium := entryPremium[symbol := 0.0];
    }

    method PlayOne(e: Event) returns (signal: Signal)
      modifies this
      ensures View().Of(SymbolOf(e)) == Step(p, old(View()).Of(SymbolOf(e)), e)
      ensures e.Evaluate? ==> signal == Evaluated(p, old(View()).Of(SymbolOf(e)), e.ctx).1
      ensures forall s: Symbol :: s != SymbolOf(e) ==> View().Of(s) == old(View()).Of(s)
      ensures old(View().Covered()) ==> View().Covered()
    {
      signal := HOLD;
      match e {
        case Evaluate(ctx) => signal := Evaluate(ctx);
        case ConfirmEntry(symbol) => ConfirmEntry(symbol);
        case ConfirmExit(symbol) => ConfirmExit(symbol);
      }
    }

    // Contexts and confirmations as the tick loop brings them; a confirmation has no signal.
    method Play(es: seq<Event>) returns (signals: seq<Signal>)
      modifies this
      ensures |signals| == |es|
      ensures forall i :: 0 <= i < |es| && es[i].Evaluate? ==>
                signals[i] == SignalAt(p, old(View()).Of(es[i].ctx.symbol), es, i)
      ensures forall s: Symbol :: View().Of(s) == LatchAfter(p, old(View()).Of(s), es, s)
      ensures old(View().Covered()) ==> View().Covered()
    {
      ghost var was := View();
      signals := [];
      var i := 0;
      while i < |es|
        invariant 0 <= i == |signals| <= |es|
        invariant forall s: Symbol :: View().Of(s) == LatchAfter(p, was.Of(s), es[..i], s)
        invariant forall j :: 0 <= j < i && es[j].Evaluate? ==> signals[j] == SignalAt(p, was.Of(es[j].ctx.symbol), es, j)
        invariant was.Covered() ==> View().Covered()
      {
        forall s: Symbol {
          LatchSnoc(p, was.Of(s), es, i, s);
        }
        var signal := PlayOne(es[i]);
        signals := signals + [signal];
        i := i + 1;
      }
      assert es[..i] == es;
    }

    method TakeSnapshot() returns (out: Snapshot)
      ensures IsSnapshot(View(), out)
    {
      out := map[];
      var todo := entered.Keys;
      ghost var st := View();
      while todo != {}
        invariant todo <= entered.Keys
        invariant forall s, f :: s in entered.Keys - todo ==> Key(s, f) in out && out[Key(s, f)] == Written(st.Of(s), f)
        invariant forall k :: k in out ==> exists s, f :: s in entered && k == Key(s, f)
      {
        var sym :| sym in todo;
        todo := todo - {sym};
        var l := View().Of(sym);
        ghost var before := out;
        out := WriteLatch(out, sym, l);
        WrittenLatch(before, sym, l);
      }
    }

    // Keys are read in any order; each names one field of one symbol.
    method Restore(state: Snapshot)
      modifies this
      ensures forall s: Symbol :: View().Of(s) == Overlay(old(View()).Of(s), state, s)
      ensures old(View().Covered()) && WholeLatches(state) ==> View().Covered()
    {
      var todo := state.Keys;
      ghost var was := View();
      ghost var read: Snapshot := map[];
      while todo != {}
        invariant todo <= state.Keys
        invariant read == map k | k in state && k !in todo :: state[k]
        invariant forall s: Symbol :: View().Of(s) == Overlay(was.Of(s), read, s)
        invariant CoveredBut(View(), was, read)
      {
        var key :| key in todo;
        todo := todo - {key};
        ghost var before, earlier := View(), read;
        read := read[key := state[key]];
        RestoreKey(key, state[key]);
        forall s: Symbol
          ensures View().Of(s) == Overlay(was.Of(s), read, s)
        {
          OverlayOneMore(was.Of(s), earlier, key, state[key], s);
        }
      }
      assert read == state;
      if was.Covered() && WholeLatches(state) {
        CoveredAtLast(View(), was, state);
      }
    }

    method RestoreKey(key: string, v: Value)
      modifies this
      ensures forall s: Symbol :: View().Of(s) == ReadKey(old(View()).Of(s), key, v, s)
      ensures old(entered.Keys) <= entered.Keys
      ensures forall s: Symbol :: View().Met(s) && !old(View()).Met(s) ==>
                SEP !in s && exists f :: key == Key(s, f)
      ensures forall s: Symbol :: SEP !in s && key == Key(s, Entered) && v.Flag? ==> s in entered
    {
      var cut := Cut(key);
      forall s: Symbol | SEP !in s && key == Key(s, Entered)
        ensures cut == Some((s, FieldName(Entered)))
      {
        CutAtFirst(s, FieldName(Entered));
      }
      if cut.None? {
        return;
      }
      var field := FieldNamed(cut.value.1);
      if field.Some? {
        assert key == Key(cut.value.0, field.value);
        FieldNames(field.value, Entered);
        Put(cut.value.0, field.value, v);
      }
    }

    // One field of one symbol; a value of the wrong kind did not parse and is ignored.
    method Put(sym: Symbol, field: Field, v: Value)
      modifies this
      ensures View().Of(sym) == ReadField(old(View()).Of(sym), field, v)
      ensures forall s: Symbol :: s != sym ==> View().Of(s) == old(View()).Of(s)
      ensures old(entered.Keys) <= entered.Keys
      ensures forall s: Symbol :: View().Met(s) && !old(View()).Met(s) ==> s == sym
      ensures field == Entered && v.Flag? ==> sym in entered
    {
      match field {
        case Entered =>
          if v.Flag? { entered := entered[sym := v.on]; }
        case PendingExit =>
          if v.Flag? { pendingExit := pendingExit[sym := v.on]; }
        case SignaledEntry =>
          if v.Flag? { signaledEntry := signaledEntry[sym := v.on]; }
        case LastDate =>
          if v.Date? && v.day.Some? { lastDate := lastDate[sym := Moment(v.day.value, 0, 0, 0)]; }
        case EntryPremium =>
          if v.Amount? { entryPremium := entryPremium[sym := v.amount]; }
      }
    }
  }

  function WriteLatch(out: Snapshot, sym: Symbol, l: Latch): Snapshot {
    out[Key(sym, Entered) := Written(l, Entered)]
    [Key(sym, PendingExit) := Written(l, PendingExit)]
    [Key(sym, SignaledEntry) := Written(l, SignaledEntry)]
    [Key(sym, LastDate) := Written(l, LastDate)]
    [Key(sym, EntryPremium) := Written(l, EntryPremium)]
  }

  lemma WrittenLatch(out: Snapshot, sym: Symbol, l: Latch)
    ensures forall f :: Key(sym, f) in WriteLatch(out, sym, l) && WriteLatch(out, sym, l)[Key(sym, f)] == Written(l, f)
    ensures forall s, f :: s != sym ==>
              (Key(s, f) in WriteLatch(out, sym, l) <==> Key(s, f) in out)
              && (Key(s, f) in out ==> WriteLatch(out, sym, l)[Key(s, f)] == out[Key(s, f)])
    ensures forall k :: k in WriteLatch(out, sym, l) ==> k in out || exists f :: k == Key(sym, f)
  {
    forall s, f, g | Key(s, f) == Key(sym, g)
      ensures s == sym && f == g
    {
      KeysDistinct(s, f, sym, g);
    }
  }

  // The latch of `symbol` after one stored key is read.
  function ReadKey(l: Latch, key: string, v: Value, symbol: Symbol): Latch {
    var cut := Cut(key);
    if cut.None? || cut.value.0 != symbol then l
    else
      var f := FieldNamed(cut.value.1);
      if f.None? then l else ReadField(l, f.value, v)
  }

  lemma OverlayOneMore(l: Latch, snap: Snapshot, key: string, v: Value, symbol: Symbol)
    requires key !in snap
    ensures Overlay(l, snap[key := v], symbol) == ReadKey(Overlay(l, snap, symbol), key, v, symbol)
  {
    var cut := Cut(key);
    if cut.Some? && cut.value.0 == symbol && FieldNamed(cut.value.1).Some? {
      OverlayRead(l, snap, FieldNamed(cut.value.1).value, v, symbol);
    } else {
      forall f
        ensures Stored(snap[key := v], symbol, f) == Stored(snap, symbol, f)
      {
        if SEP !in symbol && key == Key(symbol, f) {
          CutAtFirst(symbol, FieldName(f));
        }
      }
    }
  }

  lemma OverlayRead(l: Latch, snap: Snapshot, f: Field, v: Value, symbol: Symbol)
    requires SEP !in symbol && Key(symbol, f) !in snap
    ensures Overlay(l, snap[Key(symbol, f) := v], symbol) == ReadField(Overlay(l, snap, symbol), f, v)
  {
    var after := snap[Key(symbol, f) := v];
    forall g: Field | g != f
      ensures Stored(after, symbol, g) == Stored(snap, symbol, g)
    {
      if Key(symbol, g) == Key(symbol, f) {
        KeysDistinct(symbol, g, symbol, f);
      }
    }
    assert Stored(snap, symbol, f) == Malformed && Stored(after, symbol, f) == v;
  }

  // ---- A snapshot read back ----

  // A date remembered to the day only.
  function Dated(l: Latch): Latch {
    if l.lastDate.None? then l else l.(lastDate := Some(Moment(l.lastDate.value.day, 0, 0, 0)))
  }

  // Restoring a snapshot into a fresh object gives back every symbol's latch with its date
  // kept to the day, except that a symbol containing the separator comes back blank.
  lemma RestoreOfSnapshot(st: Latches, snap: Snapshot, symbol: Symbol)
    requires st.Covered() && IsSnapshot(st, snap)
    ensures Overlay(BLANK, snap, symbol) == if SEP in symbol then BLANK else Dated(st.Of(symbol))
  {
    if SEP in symbol {
      OverlayNothing(snap, symbol);
    } else if symbol in st.entered {
      OverlayWritten(st.Of(symbol), snap, symbol);
    } else {
      assert st.Of(symbol) == BLANK;
      forall f
        ensures Key(symbol, f) !in snap
      {
        if Key(symbol, f) in snap {
          var s, g :| s in st.entered && Key(symbol, f) == Key(s, g);
          KeysDistinct(symbol, f, s, g);
        }
      }
      OverlayNothing(snap, symbol);
    }
  }

  lemma OverlayNothing(snap: Snapshot, symbol: Symbol)
    requires SEP in symbol || forall f :: Key(symbol, f) !in snap
    ensures Overlay(BLANK, snap, symbol) == BLANK
  {
  }

  lemma OverlayWritten(l: Latch, snap: Snapshot, symbol: Symbol)
    requires SEP !in symbol && forall f :: Key(symbol, f) in snap && snap[Key(symbol, f)] == Written(l, f)
    ensures Overlay(BLANK, snap, symbol) == Dated(l)
  {
  }

  // Latches that no evaluation can tell apart.
  predicate Alike(a: Latch, b: Latch) {
    Dated(a) == Dated(b)
  }

  // The restored latch is like the original exactly when the symbol has no separator, or
  // there was nothing to restore.
  lemma RestoreAlikeIff(st: Latches, snap: Snapshot, symbol: Symbol)
    requires st.Covered() && IsSnapshot(st, snap)
    ensures Alike(Overlay(BLANK, snap, symbol), st.Of(symbol)) <==> SEP !in symbol || st.Of(symbol) == BLANK
  {
    RestoreOfSnapshot(st, snap, symbol);
  }

  // ---- Runs ----

  datatype Event = Evaluate(ctx: Context) | ConfirmEntry(symbol: Symbol) | ConfirmExit(symbol: Symbol)

  function SymbolOf(e: Event): Symbol {
    if e.Evaluate? then e.ctx.symbol else e.symbol
  }

  function Step(p: Params, l: Latch, e: Event): Latch {
    match e
    case Evaluate(ctx) => Evaluated(p, l, ctx).0
    case ConfirmEntry(_) => EntryConfirmed(l)
    case ConfirmExit(_) => ExitConfirmed(l)
  }

  // A symbol's latch after a run over many symbols.
  function LatchAfter(p: Params, l: Latch, es: seq<Event>, symbol: Symbol): Latch
    decreases |es|
  {
    if es == [] then l
    else
      var earlier, e := LatchAfter(p, l, es[..|es| - 1], symbol), es[|es| - 1];
      if SymbolOf(e) == symbol then Step(p, earlier, e) else earlier
  }

  // The signal the i-th event of a run gives.
  function SignalAt(p: Params, l: Latch, es: seq<Event>, i: int): Signal
    requires 0 <= i < |es| && es[i].Evaluate?
  {
    Evaluated(p, LatchAfter(p, l, es[..i], es[i].ctx.symbol), es[i].ctx).1
  }

  lemma AlikeStep(p: Params, a: Latch, b: Latch, e: Event)
    requires Alike(a, b)
    ensures Alike(Step(p, a, e), Step(p, b, e))
    ensures e.Evaluate? ==> Evaluated(p, a, e.ctx).1 == Evaluated(p, b, e.ctx).1
  {
  }

  lemma {:induction false} AlikeRun(p: Params, a: Latch, b: Latch, es: seq<Event>, symbol: Symbol)
    requires Alike(a, b)
    ensures Alike(LatchAfter(p, a, es, symbol), LatchAfter(p, b, es, symbol))
    decreases |es|
  {
    if es != [] {
      var earlier := es[..|es| - 1];
      AlikeRun(p, a, b, earlier, symbol);
      AlikeStep(p, LatchAfter(p, a, earlier, symbol), LatchAfter(p, b, earlier, symbol), es[|es| - 1]);
    }
  }

  // A restored strategy behaves as the original: on every later run of contexts and
  // confirmations it gives the same signal at every evaluation of a symbol without the
  // separator.
  lemma RestoredBehavesIdentically(p: Params, st: Latches, snap: Snapshot, es: seq<Event>, i: nat)
    requires st.Covered() && IsSnapshot(st, snap)
    requires i < |es| && es[i].Evaluate? && SEP !in es[i].ctx.symbol
    ensures var symbol := es[i].ctx.symbol;
            SignalAt(p, Overlay(BLANK, snap, symbol), es, i) == SignalAt(p, st.Of(symbol), es, i)
  {
    var symbol := es[i].ctx.symbol;
    RestoreAlikeIff(st, snap, symbol);
    AlikeRun(p, Overlay(BLANK, snap, symbol), st.Of(symbol), es[..i], symbol);
    AlikeStep(p, LatchAfter(p, Overlay(BLANK, snap, symbol), es[..i], symbol), LatchAfter(p, st.Of(symbol), es[..i], symbol), es[i]);
  }

  // The same on the objects: a new strategy with the same parameters, restored from the
  // snapshot of one that was never given broken state, answers every later sequence of
  // contexts and confirmations with the same signals, and can be saved in its turn.
  method Restart(orig: Strategy, given: Params, es: seq<Event>)
    returns (copy: Strategy, told: seq<Signal>, again: seq<Signal>)
    requires orig.View().Covered() && orig.p == WithDefaults(given)
    modifies orig
    ensures |told| == |es| == |again|
    ensures forall i :: 0 <= i < |es| && es[i].Evaluate? && SEP !in es[i].ctx.symbol ==> told[i] == again[i]
    ensures copy.View().Covered()
  {
    ghost var st := orig.View();
    var snap := orig.TakeSnapshot();
    SnapshotsAreWhole(st, snap);
    copy := new Strategy(given);
    assert forall s :: copy.View().Of(s) == BLANK;
    copy.Restore(snap);
    ghost var restored := copy.View();
    told := orig.Play(es);
    again := copy.Play(es);
    forall i: nat | i < |es| && es[i].Evaluate? && SEP !in es[i].ctx.symbol
      ensures told[i] == again[i]
    {
      assert restored.Of(es[i].ctx.symbol) == Overlay(BLANK, snap, es[i].ctx.symbol);
      RestoredBehavesIdentically(orig.p, st, snap, es, i);
    }
  }

  // A symbol with the separator forgets that it entered, and enters again the same morning.
  lemma SeparatorForgetsEntry(st: Latches, snap: Snapshot)
    requires st.Covered() && IsSnapshot(st, snap)
    requires st.Of("N|A") == Latch(true, false, false, Some(Moment(1, 9, 20, 0)), 0.0)
    ensures var p := Params(9, 20, 15, 15, 1.4);
            var es := [Evaluate(Context("N|A", Moment(1, 9, 21, 0), false, 0.0, None))];
            SignalAt(p, st.Of("N|A"), es, 0) == HOLD && SignalAt(p, Overlay(BLANK, snap, "N|A"), es, 0) == STRADDLE
  {
    RestoreOfSnapshot(st, snap, "N|A");
  }

  // ---- Traces ----

  // Days of a symbol's evaluations never go back.
  predicate DaysAdvance(es: seq<Event>) {
    forall i, j :: 0 <= i <= j < |es| && es[i].Evaluate? && es[j].Evaluate? ==> es[i].ctx.now.day <= es[j].ctx.now.day
  }

  predicate Signals(p: Params, l: Latch, es: seq<Event>, i: int, symbol: Symbol, signal: Signal) {
    0 <= i < |es| && es[i].Evaluate? && es[i].ctx.symbol == symbol && SignalAt(p, l, es, i) == signal
  }

  predicate Handshake(es: seq<Event>, from: int, to: int, symbol: Symbol) {
    exists a, b :: from < a < b < to && 0 <= a && b < |es| && es[a] == ConfirmEntry(symbol) && es[b] == ConfirmExit(symbol)
  }

  predicate Confirmed(es: seq<Event>, from: int, to: int, e: Event) {
    exists a :: from < a < to && 0 <= a < |es| && es[a] == e
  }

  lemma LatchSnoc(p: Params, l: Latch, es: seq<Event>, k: nat, symbol: Symbol)
    requires k < |es|
    ensures LatchAfter(p, l, es[..k + 1], symbol)
         == if SymbolOf(es[k]) == symbol then Step(p, LatchAfter(p, l, es[..k], symbol), es[k])
            else LatchAfter(p, l, es[..k], symbol)
  {
    assert es[..k + 1][..k] == es[..k];
  }

  // Shut since the straddle signal at i: signalled, or entered, or both confirmations came.
  predicate Shut(t: Latch, es: seq<Event>, i: int, k: int, symbol: Symbol, day: int) {
    && t.lastDate.Some? && t.lastDate.value.day == day
    && (t.signaledEntry
        || (Confirmed(es, i, k, ConfirmEntry(symbol)) && (t.entered || Handshake(es, i, k, symbol))))
  }

  lemma ShutLater(t: Latch, es: seq<Event>, i: int, k: int, symbol: Symbol, day: int)
    requires Shut(t, es, i, k, symbol, day)
    ensures Shut(t, es, i, k + 1, symbol, day)
  {
  }

  lemma ShutStep(p: Params, t: Latch, es: seq<Event>, i: nat, k: nat, symbol: Symbol, day: int)
    requires i < k < |es| && Shut(t, es, i, k, symbol, day)
    requires SymbolOf(es[k]) == symbol && (es[k].Evaluate? ==> es[k].ctx.now.day == day)
    ensures Shut(Step(p, t, es[k]), es, i, k + 1, symbol, day)
  {
    ShutLater(t, es, i, k, symbol, day);
    match es[k]
    case Evaluate(ctx) =>
    case ConfirmEntry(_) => assert es[k] == ConfirmEntry(symbol);
    case ConfirmExit(_) =>
      if !t.signaledEntry && t.entered {
        var a :| i < a < k && 0 <= a && es[a] == ConfirmEntry(symbol);
        assert es[k] == ConfirmExit(symbol);
      }
  }

  lemma SignalShuts(p: Params, l: Latch, ctx: Context, day: int)
    requires Evaluated(p, l, ctx).1 == STRADDLE && ctx.now.day == day
    ensures var t := Evaluated(p, l, ctx).0;
            t.signaledEntry && t.lastDate.Some? && t.lastDate.value.day == day
  {
  }

  // Since a straddle signal, the latch stays shut until entry and exit are both confirmed.
  lemma {:induction false} EntryLatchHolds(p: Params, l: Latch, es: seq<Event>, i: nat, k: nat, symbol: Symbol, day: int)
    requires i < k <= |es| && Signals(p, l, es, i, symbol, STRADDLE) && es[i].ctx.now.day == day
    requires forall j :: i <= j < k && es[j].Evaluate? ==> es[j].ctx.now.day == day
    ensures Shut(LatchAfter(p, l, es[..k], symbol), es, i, k, symbol, day)
    decreases k
  {
    LatchSnoc(p, l, es, k - 1, symbol);
    if k == i + 1 {
      SignalShuts(p, LatchAfter(p, l, es[..i], symbol), es[i].ctx, day);
    } else {
      EntryLatchHolds(p, l, es, i, k - 1, symbol, day);
      var t := LatchAfter(p, l, es[..k - 1], symbol);
      if SymbolOf(es[k - 1]) == symbol {
        ShutStep(p, t, es, i, k - 1, symbol, day);
      } else {
        ShutLater(t, es, i, k - 1, symbol, day);
      }
    }
  }

  // Between two straddle signals for a symbol on one day, its entry was confirmed and after
  // that its exit.
  lemma EntriesNeedHandshake(p: Params, l: Latch, es: seq<Event>, i: nat, j: nat, symbol: Symbol)
    requires DaysAdvance(es) && i < j
    requires Signals(p, l, es, i, symbol, STRADDLE) && Signals(p, l, es, j, symbol, STRADDLE)
    requires es[i].ctx.now.day == es[j].ctx.now.day
    ensures Handshake(es, i, j, symbol)
  {
    EntryLatchHolds(p, l, es, i, j, symbol, es[i].ctx.now.day);
  }

  predicate Pending(t: Latch, es: seq<Event>, i: int, k: int, symbol: Symbol, day: int) {
    t.lastDate.Some? && t.lastDate.value.day == day && (t.pendingExit || Confirmed(es, i, k, ConfirmExit(symbol)))
  }

  lemma PendingStep(p: Params, t: Latch, es: seq<Event>, i: nat, k: nat, symbol: Symbol, day: int)
    requires i < k < |es| && Pending(t, es, i, k, symbol, day)
    requires es[k].Evaluate? ==> es[k].ctx.now.day == day
    ensures Pending(if SymbolOf(es[k]) == symbol then Step(p, t, es[k]) else t, es, i, k + 1, symbol, day)
  {
    if es[k].ConfirmExit? && es[k].symbol == symbol {
      assert es[k] == ConfirmExit(symbol);
    }
  }

  lemma ExitPends(p: Params, l: Latch, ctx: Context, day: int)
    requires Evaluated(p, l, ctx).1 == EXIT && ctx.now.day == day
    ensures var t := Evaluated(p, l, ctx).0;
            t.pendingExit && t.lastDate.Some? && t.lastDate.value.day == day
  {
  }

  // Since an exit signal, the latch stays pending until the exit is confirmed.
  lemma {:induction false} ExitLatchHolds(p: Params, l: Latch, es: seq<Event>, i: nat, k: nat, symbol: Symbol, day: int)
    requires i < k <= |es| && Signals(p, l, es, i, symbol, EXIT) && es[i].ctx.now.day == day
    requires forall j :: i <= j < k && es[j].Evaluate? ==> es[j].ctx.now.day == day
    ensures Pending(LatchAfter(p, l, es[..k], symbol), es, i, k, symbol, day)
    decreases k
  {
    LatchSnoc(p, l, es, k - 1, symbol);
    if k == i + 1 {
      ExitPends(p, LatchAfter(p, l, es[..i], symbol), es[i].ctx, day);
    } else {
      ExitLatchHolds(p, l, es, i, k - 1, symbol, day);
      PendingStep(p, LatchAfter(p, l, es[..k - 1], symbol), es, i, k - 1, symbol, day);
    }
  }

  // Between two exit signals for a symbol on one day, its exit was confirmed.
  lemma ExitsNeedConfirmation(p: Params, l: Latch, es: seq<Event>, i: nat, j: nat, symbol: Symbol)
    requires DaysAdvance(es) && i < j
    requires Signals(p, l, es, i, symbol, EXIT) && Signals(p, l, es, j, symbol, EXIT)
    requires es[i].ctx.now.day == es[j].ctx.now.day
    ensures Confirmed(es, i, j, ConfirmExit(symbol))
  {
    ExitLatchHolds(p, l, es, i, j, symbol, es[i].ctx.now.day);
  }
}
