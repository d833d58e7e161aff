/** The resonant filter: one BiquadFilterNode serving as both input and output. */
module Filters {
  import opened Audio
  import opened Options

  /** The parameter names the filter's changeParameter switch recognises. */
  datatype FilterParam = Cutoff | Resonance | Type

  function ParamName(p: FilterParam): string {
    match p
    case Cutoff => "cutoff"
    case Resonance => "resonance"
    case Type => "type"
  }

  /** The switch on a parameter name: the parameter it names, or None for a name it ignores. */
  function ParseParam(name: string): (r: Option<FilterParam>)
    ensures r.Some? ==> ParamName(r.value) == name
    ensures r.None? ==> forall p :: ParamName(p) != name
  {
    if name == "cutoff" then Some(Cutoff)
    else if name == "resonance" then Some(Resonance)
    else if name == "type" then Some(Type)
    else None
  }

  /** The value kind each recognised parameter is cast to: `type` takes a filter type, the others a number. */
  predicate Accepts(parameter: string, value: ParamValue) {
    match ParseParam(parameter)
    case Some(Type) => value.FilterKind?
    case Some(_) => value.Number?
    case None => true
  }

  class Filter {
    const input: BiquadFilterNode
    const output: BiquadFilterNode

    /** Input and output are one node: a setting applied through one is what the other carries. */
    predicate Valid() {
      input == output
    }

    constructor ()
      ensures Valid() && fresh(input)
      ensures output.filterType == Lowpass && output.frequency == 20000.0 && output.q == 1.0
    {
      var node := new BiquadFilterNode();
      node.filterType := Lowpass;
      node.frequency := 20000.0;
      node.q := 1.0;
      input := node;
      output := node;
    }

    /** The effect of changeParameter, as seen at the output: the named setting changes, the other two stay. */
    twostate predicate ParameterChanged(parameter: string, value: ParamValue)
      requires Accepts(parameter, value)
      reads output
    {
      var p := ParseParam(parameter);
      output.frequency == (if p == Some(Cutoff) then value.x else old(output.frequency)) &&
      output.q == (if p == Some(Resonance) then value.x else old(output.q)) &&
      output.filterType == (if p == Some(Type) then value.kind else old(output.filterType))
    }

    method ChangeParameter(parameter: string, value: ParamValue)
      requires Valid() && Accepts(parameter, value)
      modifies input
      ensures ParameterChanged(parameter, value)
    {
      match ParseParam(parameter)
      case Some(Cutoff) => input.frequency := value.x;
      case Some(Resonance) => input.q := value.x;
      case Some(Type) => input.filterType := value.kind;
      case None =>
    }
  }
}
