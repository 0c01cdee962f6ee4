/**
 * The lifecycle the four plugins share: the plugin status values, the calls a
 * host makes and how each call moves the status.
 */
module Lifecycle {

  /** The status values the plugins assign to their `status` attribute. */
  datatype Status = Loaded | Initialized | Enabled | Disabled | Unloaded | Error

  /** The lifecycle calls a host makes on a plugin. */
  datatype Call = Initialize | Activate | Deactivate | Cleanup | UpdateSettings

  /** `activate` proceeds only from INITIALIZED; every other call has no status guard. */
  predicate CanActivate(s: Status)
  {
    s == Initialized
  }

  /** The status after a call that completes without an internal fault. */
  function Next(s: Status, c: Call): (t: Status)
    ensures c == Activate && !CanActivate(s) ==> t == s
    ensures c == Deactivate ==> t == Disabled
    ensures c == Cleanup ==> t == Unloaded
    ensures c == UpdateSettings ==> t == s
    ensures t == Enabled <==>
              (s == Initialized && c == Activate) || (s == Enabled && (c == Activate || c == UpdateSettings))
    ensures t == Initialized <==> c == Initialize || (s == Initialized && c == UpdateSettings)
    ensures t != Error || s == Error
  {
    match c
    case Initialize => Initialized
    case Activate => if CanActivate(s) then Enabled else s
    case Deactivate => Disabled
    case Cleanup => Unloaded
    case UpdateSettings => s
  }

  /** The status after a whole sequence of calls. */
  function Run(s: Status, calls: seq<Call>): Status
    decreases |calls|
  {
    if calls == [] then s else Run(Next(s, calls[0]), calls[1..])
  }

  /** Statuses from which only `initialize` leads back towards ENABLED. */
  predicate Dormant(s: Status)
  {
    s == Loaded || s == Disabled || s == Unloaded || s == Error
  }

  /**
   * A dormant plugin (in particular a DISABLED or UNLOADED one) stays dormant
   * whatever calls it receives, as long as none of them is `initialize`.
   */
  lemma {:induction false} DormantWithoutInitialize(s: Status, calls: seq<Call>)
    requires Dormant(s)
    requires Initialize !in calls
    ensures Dormant(Run(s, calls))
    decreases |calls|
  {
    if calls != [] {
      assert calls[0] in calls;
      assert forall c :: c in calls[1..] ==> c in calls;
      DormantWithoutInitialize(Next(s, calls[0]), calls[1..]);
    }
  }

  /**
   * Re-enabling a DISABLED plugin takes a fresh `initialize`: `activate` alone
   * refuses from DISABLED.
   */
  lemma ReenableNeedsInitialize(calls: seq<Call>)
    requires Run(Disabled, calls) == Enabled
    ensures Initialize in calls
  {
    if Initialize !in calls {
      DormantWithoutInitialize(Disabled, calls);
    }
  }

  /**
   * A plugin that is not ENABLED becomes ENABLED only through an `activate`
   * issued while it is INITIALIZED.
   */
  lemma {:induction false} EnabledOnlyThroughActivate(s: Status, calls: seq<Call>)
    requires s != Enabled
    requires Run(s, calls) == Enabled
    ensures exists i :: 0 <= i < |calls| && calls[i] == Activate && Run(s, calls[..i]) == Initialized
    decreases |calls|
  {
    assert calls != [];
    var t := Next(s, calls[0]);
    if t == Enabled {
      assert calls[..0] == [];
    } else {
      EnabledOnlyThroughActivate(t, calls[1..]);
      var i :| 0 <= i < |calls[1..]| && calls[1..][i] == Activate && Run(t, calls[1..][..i]) == Initialized;
      assert calls[..i + 1][1..] == calls[1..][..i];
      assert calls[i + 1] == Activate;
    }
  }
}
