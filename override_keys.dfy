/**
 * The test widget's browser overrides: the `keyCode` getter installed on
 * `KeyboardEvent`, and `document.overrideLaunchArgs`, which pins the
 * durable app id of the launch arguments.
 */
module KeyOverride {
  import opened JsonTree

  const ESCAPE := 27
  const BACKSPACE := 8
  const DURABLE_APP_ID := "com.xumo.ipa"

  /** The `keyCode` getter: Escape reads as Backspace, every other key as itself. */
  function KeyCode(which: int): (r: int)
    ensures which == ESCAPE ==> r == BACKSPACE
    ensures which != ESCAPE ==> r == which
  {
    if which == ESCAPE then BACKSPACE else which
  }

  lemma KeyCodeIdempotent(which: int)
    ensures KeyCode(KeyCode(which)) == KeyCode(which)
  {
  }

  /**
   * A launch-arguments object. `writable` is false for an object whose
   * properties cannot be assigned (a frozen object), where the assignment
   * has no effect.
   */
  class LaunchArgs {
    var fields: map<string, Json>
    var writable: bool

    constructor(fields0: map<string, Json>, writable0: bool)
      ensures fields == fields0 && writable == writable0
    {
      fields, writable := fields0, writable0;
    }
  }

  /**
   * `overrideLaunchArgs(args)`: the same object comes back. A `null`
   * argument makes the assignment throw, which is swallowed.
   */
  method OverrideLaunchArgs(args: LaunchArgs?) returns (r: LaunchArgs?)
    modifies args
    ensures r == args
    ensures args != null ==> args.writable == old(args.writable)
    ensures args != null && old(args.writable) ==>
      args.fields == old(args.fields)[ "durableAppId" := JStr(DURABLE_APP_ID)]
    ensures args != null && !old(args.writable) ==> args.fields == old(args.fields)
  {
    if args != null && args.writable {
      args.fields := args.fields["durableAppId" := JStr(DURABLE_APP_ID)];
    }
    r := args;
  }
}
