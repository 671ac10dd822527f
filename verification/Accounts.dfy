/** One account's files (crates/scv-channels/src/state.rs): saved credentials and the delivery state bound
    to them, over every run of login, start, save and logout, with a crash between any two file operations.

    Each operation holds the account's transaction lock, and a running bridge holds the account's lifetime
    lock, which logout needs. */
module Accounts {
  import opened Wrappers
  import opened Ids

  /** Credentials of the identity `fingerprint`. */
  datatype Creds = Creds(fingerprint: Id, secret: Id)

  /** One thing a delivery state holds, and the identity whose run put it there. `counted` is what marks a
      state as in use: a reply, claim, held reply, seen message or position, but no job or reaction. */
  datatype Item = Item(counted: bool, origin: Id)

  datatype Saved = Saved(binding: Option<Id>, items: seq<Item>)

  /** An account without settings of its own is enabled. */
  datatype Settings = Settings(enabled: bool)

  datatype Files = Files(creds: Option<Creds>, state: Option<Saved>, settings: Option<Settings>)

  const NOTHING := Files(None, None, None)

  // ----- operations

  /** A missing file reads as the empty, unbound state. */
  function Loaded(state: Option<Saved>): Saved {
    if state.Some? then state.value else Saved(None, [])
  }

  predicate InUse(st: Saved) {
    exists i :: 0 <= i < |st.items| && st.items[i].counted
  }

  /** Unbound, or bound to the saved credentials. */
  predicate Matches(st: Saved, creds: Option<Creds>) {
    st.binding.Some? ==> creds.Some? && creds.value.fingerprint == st.binding.value
  }

  function FingerprintOf(creds: Option<Creds>): Option<Id> {
    if creds.Some? then Some(creds.value.fingerprint) else None
  }

  predicate MayLogin(files: Files, c: Creds) {
    var st := Loaded(files.state);
    var changed := FingerprintOf(files.creds) != Some(c.fingerprint);
    Matches(st, files.creds) && !(changed && (files.creds.Some? || InUse(st)))
  }

  /** The binding is written before the credentials. */
  function Bound(files: Files, fingerprint: Id): Files {
    files.(state := Some(Loaded(files.state).(binding := Some(fingerprint))))
  }

  predicate MayBind(files: Files, held: Creds) {
    files.creds == Some(held) && Matches(Loaded(files.state), files.creds)
  }

  function Binding(files: Files): Files
    requires files.creds.Some?
  {
    if Loaded(files.state).binding.Some? then files else Bound(files, files.creds.value.fingerprint)
  }

  /** The files as their operations change them. `stop` is where a crash cuts an operation off. */
  class Store {
    var creds: Option<Creds>
    var state: Option<Saved>
    var settings: Option<Settings>

    ghost function Value(): Files
      reads this
    {
      Files(creds, state, settings)
    }

    constructor ()
      ensures Value() == NOTHING
    {
      creds, state, settings := None, None, None;
    }

    method SaveAccount(c: Creds, stop: bool) returns (ok: bool)
      modifies this`creds, this`state
      ensures ok <==> MayLogin(old(Value()), c) && !stop
      ensures Value() ==
              if !MayLogin(old(Value()), c) then old(Value())
              else if stop then Bound(old(Value()), c.fingerprint)
              else Bound(old(Value()), c.fingerprint).(creds := Some(c))
    {
      var st := Loaded(state);
      if !Matches(st, creds) {
        return false;
      }
      var changed := FingerprintOf(creds) != Some(c.fingerprint);
      var used := InUse(st);
      if changed && (creds.Some? || used) {
        return false;
      }
      state := Some(st.(binding := Some(c.fingerprint)));
      if stop {
        return false;
      }
      creds := Some(c);
      return true;
    }

    /** Load the state for a run that holds `held`. */
    method BindState(held: Creds) returns (loaded: Option<Saved>)
      modifies this`state
      ensures loaded.Some? <==> MayBind(old(Value()), held)
      ensures loaded.Some? ==> Value() == Binding(old(Value())) && loaded == state
      ensures loaded.None? ==> Value() == old(Value())
    {
      if creds != Some(held) {
        return None;
      }
      var st := Loaded(state);
      if !Matches(st, creds) {
        return None;
      }
      if st.binding.None? {
        st := st.(binding := Some(held.fingerprint));
        state := Some(st);
      }
      return Some(st);
    }

    method SaveState(st: Saved) returns (ok: bool)
      modifies this`state
      ensures ok <==> Matches(st, creds)
      ensures state == if ok then Some(st) else old(state)
    {
      ok := Matches(st, creds);
      if ok {
        state := Some(st);
      }
    }

    method SaveSettings(value: Settings)
      modifies this`settings
      ensures settings == Some(value)
    {
      settings := Some(value);
    }

    /** Credentials go first, then the state, then the settings; a crash after `stop` of these leaves the rest. */
    method Remove(stop: nat)
      modifies this
      ensures Value() == Removed(old(Value()), stop)
    {
      if stop == 0 {
        return;
      }
      creds := None;
      if stop == 1 {
        return;
      }
      state := None;
      if stop == 2 {
        return;
      }
      settings := None;
    }
  }

  /** What a logout that stops after `stop` removals leaves. */
  function Removed(files: Files, stop: nat): Files {
    Files(if stop >= 1 then None else files.creds,
          if stop >= 2 then None else files.state,
          if stop >= 3 then None else files.settings)
  }

  // ----- every run

  /** A bridge that runs, with the identity it holds and its state in memory. */
  datatype Runner = Runner(identity: Id, mem: Saved)

  /** `chosen` is what the account was last set to since its last whole logout. */
  datatype World = World(files: Files, bridge: Option<Runner>, chosen: Option<Settings>)

  const START := World(NOTHING, None, None)

  datatype Event =
    | Login(c: Creds, stop: bool)
    | Start(held: Creds)
    | Save(items: seq<Item>)
    | Halt
    | Configure(settings: Settings)
    | Logout(removals: nat)

  /** A bridge saves what it loaded and what it added itself. */
  ghost predicate Enabled(w: World, e: Event) {
    match e
    case Login(_, _) => true
    case Start(_) => w.bridge.None?
    case Save(items) =>
      w.bridge.Some? && forall x :: x in items ==> x in w.bridge.value.mem.items || x.origin == w.bridge.value.identity
    case Halt => true
    case Configure(_) => true
    case Logout(_) => w.bridge.None?
  }

  ghost function Next(w: World, e: Event): World
    requires Enabled(w, e)
  {
    match e
    case Login(c, stop) =>
      if !MayLogin(w.files, c) then w
      else
        var bound := Bound(w.files, c.fingerprint);
        w.(files := if stop then bound else bound.(creds := Some(c)))
    case Start(held) =>
      if !MayBind(w.files, held) then w
      else
        var files := Binding(w.files);
        w.(files := files, bridge := Some(Runner(held.fingerprint, Loaded(files.state))))
    case Save(items) =>
      var st := w.bridge.value.mem.(items := items);
      if Matches(st, w.files.creds)
      then w.(files := w.files.(state := Some(st)), bridge := Some(w.bridge.value.(mem := st)))
      else w.(bridge := None)
    case Halt => w.(bridge := None)
    case Configure(settings) => w.(files := w.files.(settings := Some(settings)), chosen := Some(settings))
    case Logout(stop) => w.(files := Removed(w.files, stop), chosen := if stop >= 3 then None else w.chosen)
  }

  /** All of it was put there by runs of the identity it is bound to. */
  ghost predicate Own(st: Saved) {
    st.binding.Some? && forall x :: x in st.items ==> x.origin == st.binding.value
  }

  /** Saved credentials always come with a state bound to them; a state without credentials is what an
      interrupted login or logout left. */
  ghost predicate Inv(w: World) {
    && (w.files.state.Some? ==> Own(w.files.state.value))
    && (w.files.creds.Some? ==>
          w.files.state.Some? && w.files.state.value.binding == Some(w.files.creds.value.fingerprint))
    && (w.bridge.Some? ==>
          && w.files.creds.Some? && w.files.creds.value.fingerprint == w.bridge.value.identity
          && Own(w.bridge.value.mem) && w.bridge.value.mem.binding == Some(w.bridge.value.identity))
    && w.files.settings == w.chosen
  }

  lemma StepKeeps(w: World, e: Event)
    requires Inv(w) && Enabled(w, e)
    ensures Inv(Next(w, e))
  {
  }

  ghost predicate IsRun(w: World, events: seq<Event>)
    decreases |events|
  {
    events == [] || (Enabled(w, events[0]) && IsRun(Next(w, events[0]), events[1..]))
  }

  ghost function After(w: World, events: seq<Event>): World
    requires IsRun(w, events)
    decreases |events|
  {
    if events == [] then w else After(Next(w, events[0]), events[1..])
  }

  lemma {:induction false} RunKeeps(w: World, events: seq<Event>)
    requires Inv(w) && IsRun(w, events)
    ensures Inv(After(w, events))
    decreases |events|
  {
    hide Inv, Enabled, Next;
    if events != [] {
      StepKeeps(w, events[0]);
      RunKeeps(Next(w, events[0]), events[1..]);
    }
  }

  /** In every run what a bridge works with was put there by runs of the identity it holds, which is the
      identity of the saved credentials. */
  lemma NoOtherIdentity(events: seq<Event>)
    requires IsRun(START, events)
    ensures var w := After(START, events);
            w.bridge.Some? ==>
              && FingerprintOf(w.files.creds) == Some(w.bridge.value.identity)
              && forall x :: x in w.bridge.value.mem.items ==> x.origin == w.bridge.value.identity
  {
    assert Inv(START);
    RunKeeps(START, events);
    hide IsRun, After;
  }

  /** In every run saved credentials and saved state have the same fingerprint. */
  lemma SameFingerprint(events: seq<Event>)
    requires IsRun(START, events)
    ensures var f := After(START, events).files;
            f.creds.Some? ==> f.state.Some? && f.state.value.binding == FingerprintOf(f.creds)
  {
    assert Inv(START);
    RunKeeps(START, events);
    hide IsRun, After;
  }

  /** Only a bridge's own save and a logout change what is kept for the account; a bridge starts with all of it, and
      what it saves is what is kept then. */
  lemma ItemsStay(w: World, e: Event)
    requires Inv(w) && Enabled(w, e)
    ensures var was, now := Loaded(w.files.state).items, Loaded(Next(w, e).files.state).items;
            && (!e.Save? && !(e.Logout? && e.removals >= 2) ==> now == was)
            && (e.Start? && Next(w, e).bridge.Some? ==> Next(w, e).bridge.value.mem.items == was)
            && (e.Save? ==> now == if Next(w, e).bridge.Some? then e.items else was)
            && (e.Logout? && e.removals >= 2 ==> now == [])
  {
  }

  /** What an interrupted login or logout leaves: a bound state without credentials. */
  predicate Interrupted(files: Files) {
    files.creds.None? && files.state.Some? && files.state.value.binding.Some?
  }

  /** When a login succeeds in a run: nothing is saved, or credentials of the same identity are. */
  lemma LoginWhen(events: seq<Event>, c: Creds)
    requires IsRun(START, events)
    ensures var f := After(START, events).files;
            && (MayLogin(f, c) <==> (f.creds.None? && f.state.None?) || FingerprintOf(f.creds) == Some(c.fingerprint))
            && (!MayLogin(f, c) ==> Interrupted(f) || (f.creds.Some? && FingerprintOf(f.creds) != Some(c.fingerprint)))
  {
    assert Inv(START);
    RunKeeps(START, events);
    hide IsRun, After;
  }

  /** While credentials are saved the account is set as it was last set: a logout that is cut off never leaves
      them beside the default, which is enabled. */
  lemma SettingsOutlive(events: seq<Event>)
    requires IsRun(START, events) && After(START, events).files.creds.Some?
    ensures After(START, events).files.settings == After(START, events).chosen
  {
    assert Inv(START);
    RunKeeps(START, events);
    hide IsRun, After;
  }

  /** A logout that gets as far as the state. */
  predicate PastState(e: Event) {
    e.Logout? && e.removals >= 2
  }

  /** After an interruption no login and no start succeeds, whatever happens, until a logout gets as far as the
      state. */
  lemma {:induction false} FailsClosed(w: World, events: seq<Event>)
    requires Interrupted(w.files) && w.bridge.None? && IsRun(w, events)
    requires forall i :: 0 <= i < |events| ==> !PastState(events[i])
    ensures var n := After(w, events);
            n.files.creds == w.files.creds && n.files.state == w.files.state && n.bridge.None?
    ensures forall c :: !MayLogin(w.files, c) && !MayBind(w.files, c)
    decreases |events|
  {
    if events != [] {
      assert !PastState(events[0]);
      var n := Next(w, events[0]);
      assert n.files.creds == w.files.creds && n.files.state == w.files.state && n.bridge.None?;
      FailsClosed(n, events[1..]);
    }
  }
}
