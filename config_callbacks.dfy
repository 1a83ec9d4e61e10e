/** Configuration reload callbacks (config/callback.go). */
module ConfigCallbacks {

  /** A registered callback, identified by its registration handle. */
  datatype Callback = Callback(id: nat)

  /** The package-level fnCallbacks slice, and the record of callback invocations. */
  class Callbacks {
    var fnCallbacks: seq<Callback>
    var invoked: seq<Callback>

    /** The list starts empty and nothing has run. */
    constructor ()
      ensures fnCallbacks == [] && invoked == []
    {
      fnCallbacks := [];
      invoked := [];
    }

    /** RegisterCallback(fn): appends fn; a callback registered twice runs twice. */
    method RegisterCallback(fn: Callback)
      modifies this
      ensures fnCallbacks == old(fnCallbacks) + [fn]
      ensures invoked == old(invoked)
    {
      fnCallbacks := fnCallbacks + [fn];
    }

    /** executeCallbacks(): calls every registered callback exactly once, in registration order. */
    method ExecuteCallbacks()
      modifies this
      ensures invoked == old(invoked) + fnCallbacks
      ensures fnCallbacks == old(fnCallbacks)
    {
      var i := 0;
      while i < |fnCallbacks|
        invariant 0 <= i <= |fnCallbacks|
        invariant fnCallbacks == old(fnCallbacks)
        invariant invoked == old(invoked) + fnCallbacks[..i]
      {
        invoked := invoked + [fnCallbacks[i]];
        i := i + 1;
        assert fnCallbacks[..i] == fnCallbacks[..i - 1] + [fnCallbacks[i - 1]];
      }
      assert fnCallbacks[..i] == fnCallbacks;
    }
  }
}
