/** The options of `useReduxState` and the tri-state
    `assumeChangedIfNotAffected` value the hook derives from them. */
module Policies {
  import opened Js

  /** `true`, `false` or `null` in the source. */
  datatype Policy = AssumeChanged | Ignore | Default

  /** The two option properties the hook reads; an option that was not
      given reads as `undefined`, which is also what an omitted options
      argument (defaulted to `{}`) gives. */
  datatype Options = Options(forceUpdateForStateChange: Value, ignoreIntermediateObjectUsage: Value)

  /** The nested conditional on the two options: a truthy force option
      assumes change, else a truthy ignore option ignores, else the
      comparator's default applies. */
  function SelectPolicy(opts: Options): (p: Policy)
    ensures p == AssumeChanged <==> Truthy(opts.forceUpdateForStateChange)
    ensures p == Ignore <==>
      !Truthy(opts.forceUpdateForStateChange) && Truthy(opts.ignoreIntermediateObjectUsage)
    ensures p == Default <==>
      !Truthy(opts.forceUpdateForStateChange) && !Truthy(opts.ignoreIntermediateObjectUsage)
  {
    if Truthy(opts.forceUpdateForStateChange) then AssumeChanged
    else if Truthy(opts.ignoreIntermediateObjectUsage) then Ignore
    else Default
  }

  /** A set force flag wins whatever the other flag says; with no options
      at all the policy is the default. */
  lemma ForceFlagWins(force: Value, ignore1: Value, ignore2: Value)
    requires Truthy(force)
    ensures SelectPolicy(Options(force, ignore1)) == SelectPolicy(Options(force, ignore2)) == AssumeChanged
    ensures SelectPolicy(Options(Undefined, Undefined)) == Default
  {
  }

  /** Every one of the three policies can be selected. */
  lemma EveryPolicySelectable(p: Policy)
    ensures exists opts :: SelectPolicy(opts) == p
  {
    var opts := match p
      case AssumeChanged => Options(Bool(true), Undefined)
      case Ignore => Options(Undefined, Bool(true))
      case Default => Options(Undefined, Undefined);
    assert SelectPolicy(opts) == p;
  }

  /** The value stored as `assumeChangedIfNotAffected` and handed to the
      comparator. Each policy has its own value, so the comparator can tell
      the three apart. */
  function PolicyValue(p: Policy): (v: Value)
    ensures v == Bool(true) || v == Bool(false) || v == Null
    ensures v == Bool(true) <==> p == AssumeChanged
    ensures v == Bool(false) <==> p == Ignore
    ensures v == Null <==> p == Default
  {
    match p
    case AssumeChanged => Bool(true)
    case Ignore => Bool(false)
    case Default => Null
  }
}
