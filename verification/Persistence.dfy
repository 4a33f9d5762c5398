/** Writing the extension state to storage and reading it back. */
module Persistence {
  import opened Options
  import opened Text

  const FORBIDDEN := ["apikey", "api_key", "secret", "authorization", "credential", "bearer", "token", "password"]

  const TRANSIENT := {"assistantWebContext", "assistantProviderTest", "assistantStreaming", "assistantConversationQuery",
                      "assistantRenaming", "assistantContextInclude", "assistantDraft"}

  predicate Includes(s: string, part: string) {
    exists k | 0 <= k <= |s| :: StartsWith(s[k..], part)
  }

  /** `lower` is the host's `toLowerCase`. */
  predicate IsForbiddenStateKey(lower: string -> string, key: string) {
    exists i | 0 <= i < |FORBIDDEN| :: Includes(lower(key), FORBIDDEN[i])
  }

  ghost predicate Clean<V>(lower: string -> string, m: map<string, V>) {
    forall key | key in m :: !IsForbiddenStateKey(lower, key)
  }

  /** The entries of `m` whose key is not credential-shaped. */
  function Stripped<V>(lower: string -> string, m: map<string, V>): map<string, V> {
    map key | key in m && !IsForbiddenStateKey(lower, key) :: m[key]
  }

  method StripForbiddenKeys<V>(lower: string -> string, value: map<string, V>) returns (clean: map<string, V>)
    ensures clean == Stripped(lower, value)
  {
    hide IsForbiddenStateKey;
    clean := map[];
    var keys := value.Keys;
    while keys != {}
      invariant keys <= value.Keys
      invariant clean == map key | key in value.Keys - keys && !IsForbiddenStateKey(lower, key) :: value[key]
      decreases |keys|
    {
      var key :| key in keys;
      keys := keys - {key};
      if IsForbiddenStateKey(lower, key) {
        continue;
      }
      clean := clean[key := value[key]];
    }
  }

  // ---------------------------------------------------------------------- the store

  /** The state in memory, and the blob in storage if there is one. */
  datatype Persisted<V> = Persisted(state: map<string, V>, stored: Option<map<string, V>>)

  /** Updates and reloads; each storage call may fail. */
  datatype Step<V> = Update(patch: map<string, V>, written: bool) | Reload(readable: bool)

  function Snapshot<V>(state: map<string, V>): map<string, V> {
    state - TRANSIENT
  }

  function Hydrated<V>(lower: string -> string, initial: map<string, V>, stored: Option<map<string, V>>): map<string, V> {
    if stored.Some? then initial + Stripped(lower, stored.value) else initial
  }

  /** A reload starts a new store on the same storage. */
  function Next<V>(lower: string -> string, initial: map<string, V>, p: Persisted<V>, s: Step<V>): Persisted<V> {
    match s
    case Update(patch, written) =>
      var state := p.state + Stripped(lower, patch);
      Persisted(state, if written then Some(Snapshot(state)) else p.stored)
    case Reload(readable) => p.(state := if readable then Hydrated(lower, initial, p.stored) else initial)
  }

  function Run<V>(lower: string -> string, initial: map<string, V>, p: Persisted<V>, steps: seq<Step<V>>): Persisted<V>
    decreases steps
  {
    if steps == [] then p else Run(lower, initial, Next(lower, initial, p, steps[0]), steps[1..])
  }

  class PersistentStore<V> {
    const lower: string -> string
    const initial: map<string, V>
    var state: map<string, V>
    var stored: Option<map<string, V>>

    constructor (lower: string -> string, initial: map<string, V>, stored: Option<map<string, V>>)
      ensures this.lower == lower && this.initial == initial
      ensures Value() == Persisted(initial, stored)
    {
      this.lower, this.initial, this.state, this.stored := lower, initial, initial, stored;
    }

    ghost function Value(): Persisted<V>
      reads this
    {
      Persisted(state, stored)
    }

    /** Read the blob; what is unreadable leaves the initial state. */
    method Hydrate(readable: bool)
      modifies this`state
      ensures Value() == Next(lower, initial, old(Value()), Reload(readable))
    {
      state := initial;
      if readable && stored.Some? {
        var value := StripForbiddenKeys(lower, stored.value);
        state := initial + value;
      }
    }

    /** Write everything but the transient keys; a failed write is ignored. */
    method Persist(written: bool)
      modifies this`stored
      ensures stored == if written then Some(Snapshot(state)) else old(stored)
    {
      if written {
        stored := Some(state - TRANSIENT);
      }
    }

    method ApplyPatch(patch: map<string, V>, written: bool)
      modifies this
      ensures Value() == Next(lower, initial, old(Value()), Update(patch, written))
    {
      var clean := StripForbiddenKeys(lower, patch);
      state := state + clean;
      Persist(written);
    }
  }

  // ------------------------------------------------------------------ over all runs

  /** What holds from the first reload on, whatever was in storage before. */
  ghost predicate Inv<V>(lower: string -> string, initial: map<string, V>, p: Persisted<V>) {
    Clean(lower, p.state) && initial.Keys <= p.state.Keys
  }

  /** What this build has written: nothing credential-shaped, nothing transient. */
  ghost predicate Written<V>(lower: string -> string, stored: Option<map<string, V>>) {
    stored.Some? ==> Clean(lower, stored.value) && stored.value.Keys !! TRANSIENT
  }

  lemma StepKeeps<V>(lower: string -> string, initial: map<string, V>, p: Persisted<V>, s: Step<V>)
    requires Clean(lower, initial) && Inv(lower, initial, p)
    ensures Inv(lower, initial, Next(lower, initial, p, s))
    ensures Written(lower, p.stored) ==> Written(lower, Next(lower, initial, p, s).stored)
    ensures s.Update? && s.written ==> Written(lower, Next(lower, initial, p, s).stored)
  {
    hide IsForbiddenStateKey;
  }

  /** `m` has `value` under `key`, or nothing there. */
  ghost predicate Has<V>(m: map<string, V>, key: string, value: Option<V>) {
    if value.Some? then key in m && m[key] == value.value else key !in m
  }

  function At<V>(m: map<string, V>, key: string): Option<V> {
    if key in m then Some(m[key]) else None
  }

  /**
   * One update, key by key: a patched key that is not credential-shaped takes its new value in memory, every
   * other key keeps what it had; storage, if written, holds the same for every key but the transient ones.
   */
  lemma UpdateAppliesThePatch<V>(lower: string -> string, initial: map<string, V>, p: Persisted<V>,
                                 patch: map<string, V>, written: bool, key: string)
    ensures var v := Next(lower, initial, p, Update(patch, written));
      && Has(v.state, key,
             if key in patch && !IsForbiddenStateKey(lower, key) then Some(patch[key]) else At(p.state, key))
      && if written then v.stored.Some? && Has(v.stored.value, key, if key in TRANSIENT then None else At(v.state, key))
         else v.stored == p.stored
  {
    hide IsForbiddenStateKey;
  }

  /** No credential-shaped key is ever in memory, even over a blob that holds some. */
  lemma {:induction false} NoForbiddenKeyInMemory<V>(lower: string -> string, initial: map<string, V>, p: Persisted<V>,
                                                     steps: seq<Step<V>>)
    requires Clean(lower, initial) && Inv(lower, initial, p)
    ensures Inv(lower, initial, Run(lower, initial, p, steps))
    decreases steps
  {
    hide Clean, Next, Inv;
    if steps != [] {
      StepKeeps(lower, initial, p, steps[0]);
      NoForbiddenKeyInMemory(lower, initial, Next(lower, initial, p, steps[0]), steps[1..]);
    }
  }

  predicate Wrote<V>(steps: seq<Step<V>>) {
    exists i | 0 <= i < |steps| :: steps[i].Update? && steps[i].written
  }

  /**
   * At the end of a run storage holds nothing credential-shaped and nothing transient exactly when it
   * held neither at the start or the run has written there once.
   */
  lemma {:induction false} StorageIsCleanExactlyWhen<V>(lower: string -> string, initial: map<string, V>,
                                                        p: Persisted<V>, steps: seq<Step<V>>)
    requires Clean(lower, initial) && Inv(lower, initial, p)
    ensures Written(lower, Run(lower, initial, p, steps).stored) <==> Written(lower, p.stored) || Wrote(steps)
    decreases steps
  {
    hide Clean, Inv, Written;
    if steps != [] {
      var q := Next(lower, initial, p, steps[0]);
      StepKeeps(lower, initial, p, steps[0]);
      StorageIsCleanExactlyWhen(lower, initial, q, steps[1..]);
      assert Wrote(steps) <==> (steps[0].Update? && steps[0].written) || Wrote(steps[1..]) by {
        assert forall i | 1 <= i < |steps| :: steps[i] == steps[1..][i - 1];
        if Wrote(steps[1..]) {
          var i :| 0 <= i < |steps[1..]| && steps[1..][i].Update? && steps[1..][i].written;
          assert steps[i + 1] == steps[1..][i];
        }
      }
    }
  }

  /** After a written update a reload restores every key but the transient ones, which start over. */
  lemma ReloadRestores<V>(lower: string -> string, initial: map<string, V>, p: Persisted<V>, patch: map<string, V>,
                          key: string)
    requires Clean(lower, initial) && Inv(lower, initial, p)
    ensures var before := Next(lower, initial, p, Update(patch, true));
      var after := Next(lower, initial, before, Reload(true));
      && (key in after.state <==> key in before.state && (key in TRANSIENT ==> key in initial))
      && (key in after.state ==> after.state[key] == if key in TRANSIENT then initial[key] else before.state[key])
  {
    hide IsForbiddenStateKey;
  }

  ghost predicate StartsOver<V>(initial: map<string, V>, state: map<string, V>, key: string) {
    (key in state <==> key in initial) && (key in initial && key in state ==> state[key] == initial[key])
  }

  /**
   * Reading filters credential-shaped keys but not transient ones: a transient key starts over exactly
   * when the blob does not hold it, holds its initial value, or the other filter happens to hit it.
   */
  lemma ReadingResetsExactlyWhen<V>(lower: string -> string, initial: map<string, V>, blob: map<string, V>, key: string)
    requires key in TRANSIENT
    ensures StartsOver(initial, Hydrated(lower, initial, Some(blob)), key) <==>
      key !in blob || IsForbiddenStateKey(lower, key) || (key in initial && blob[key] == initial[key])
  {
    hide IsForbiddenStateKey;
    var state := Hydrated(lower, initial, Some(blob));
    var kept := Stripped(lower, blob);
    assert key in kept <==> key in blob && !IsForbiddenStateKey(lower, key);
    assert key in state <==> key in initial || key in kept;
  }

  /**
   * Over every run that started on storage this build had written, or has written there itself, a reload
   * starts every transient key over, readable or not.
   */
  lemma TransientKeysStartOver<V>(lower: string -> string, initial: map<string, V>, p: Persisted<V>,
                                  steps: seq<Step<V>>, readable: bool, key: string)
    requires Clean(lower, initial) && Inv(lower, initial, p)
    requires Written(lower, p.stored) || Wrote(steps)
    requires key in TRANSIENT
    ensures StartsOver(initial, Next(lower, initial, Run(lower, initial, p, steps), Reload(readable)).state, key)
  {
    hide Clean, Inv, Wrote, IsForbiddenStateKey, Run;
    StorageIsCleanExactlyWhen(lower, initial, p, steps);
    var q := Run(lower, initial, p, steps);
    if readable && q.stored.Some? {
      assert key !in q.stored.value;
      ReadingResetsExactlyWhen(lower, initial, q.stored.value, key);
    }
  }
}
