/** create_camcfg of the CSS analyzer: the GUI component string for the camera
    configuration widget. */
module CamCfg {

  datatype Option<T> = None | Some(value: T)

  const Prefix: string := "camcfg("
  const Suffix: string := ")[@maxsize=5x2]"

  /** create_camcfg(_, hint): the first argument is ignored and the hint is
      wrapped as "camcfg(" + hint + ")[@maxsize=5x2]". */
  function CreateCamcfg(input: string, hint: string): (r: string)
    ensures |r| == |hint| + 22
    ensures r[..7] == "camcfg(" && r[|r| - 15..] == ")[@maxsize=5x2]"
    ensures r[7..|r| - 15] == hint
  {
    Prefix + hint + Suffix
  }

  /** The hint a camcfg component string wraps, if it has that form. */
  function HintOf(spec: string): Option<string>
  {
    if |spec| >= |Prefix| + |Suffix| && spec[..|Prefix|] == Prefix && spec[|spec| - |Suffix|..] == Suffix
    then Some(spec[|Prefix|..|spec| - |Suffix|])
    else None
  }

  /** The hint can be read back from the component string. */
  lemma HintRoundTrip(input: string, hint: string)
    ensures HintOf(CreateCamcfg(input, hint)) == Some(hint)
  {
  }

  /** Every string of the camcfg form is what create_camcfg makes of its hint. */
  lemma HintOfInverse(spec: string)
    requires HintOf(spec).Some?
    ensures CreateCamcfg("", HintOf(spec).value) == spec
  {
  }

  /** Different hints give different strings; the first argument never matters. */
  lemma CreateCamcfgInjective(input1: string, hint1: string, input2: string, hint2: string)
    ensures CreateCamcfg(input1, hint1) == CreateCamcfg(input2, hint2) <==> hint1 == hint2
  {
  }
}
