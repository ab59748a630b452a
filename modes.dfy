/** The three string-keyed mode selectors of the driver: the structural work
    mode, the self-support aggregation mode and the drip aggregation mode. Each
    accepts a closed set of names and reports every other string as an error
    instead of terminating the process. */
module Modes {
  import opened Outcomes

  /** Support condition and load-direction freedom of the worst-case analysis. */
  datatype WorkMode =
    | NoSupportConstrainedDirection   // "nscf"
    | NoSupportFreeForce              // "nsff"
    | WithSupportConstrainedDirection // "wscf"
    | WithSupportFreeForce            // "wsff"

  /** Aggregation of the self-support constraint over the background points. */
  datatype SSMode = PNorm | PNorm2 | HFunction | HFunction2 | Overhang | Overhang2

  /** Aggregation of the drip constraint: the self-support kinds plus two exponential ones. */
  datatype DripMode =
    | PNormDrip | PNorm2Drip | HFunctionDrip | HFunction2Drip | OverhangDrip | Overhang2Drip
    | ExpDrip | Exp2Drip

  const WorkModeNames: set<string> := {"nscf", "nsff", "wscf", "wsff"}
  const SSModeNames: set<string> := {"p", "p2", "h", "h2", "oh", "oh2"}
  const DripModeNames: set<string> := SSModeNames + {"exp", "exp2"}

  function WorkModeName(m: WorkMode): (s: string)
    ensures s in WorkModeNames
  {
    match m
    case NoSupportConstrainedDirection => "nscf"
    case NoSupportFreeForce => "nsff"
    case WithSupportConstrainedDirection => "wscf"
    case WithSupportFreeForce => "wsff"
  }

  function SSModeName(m: SSMode): (s: string)
    ensures s in SSModeNames
  {
    match m
    case PNorm => "p"
    case PNorm2 => "p2"
    case HFunction => "h"
    case HFunction2 => "h2"
    case Overhang => "oh"
    case Overhang2 => "oh2"
  }

  function DripModeName(m: DripMode): (s: string)
    ensures s in DripModeNames
  {
    match m
    case PNormDrip => "p"
    case PNorm2Drip => "p2"
    case HFunctionDrip => "h"
    case HFunction2Drip => "h2"
    case OverhangDrip => "oh"
    case Overhang2Drip => "oh2"
    case ExpDrip => "exp"
    case Exp2Drip => "exp2"
  }

  /** The work-mode selector: accepts exactly the four names, each naming its own
      mode; any other string is an InvalidMode error carrying that string. */
  function ParseWorkMode(modestr: string): (r: Result<WorkMode>)
    ensures r.Ok? <==> modestr in WorkModeNames
    ensures r.Ok? ==> WorkModeName(r.value) == modestr
    ensures r.Err? ==> r.error == InvalidMode(modestr)
  {
    if modestr == "nscf" then Ok(NoSupportConstrainedDirection)
    else if modestr == "nsff" then Ok(NoSupportFreeForce)
    else if modestr == "wscf" then Ok(WithSupportConstrainedDirection)
    else if modestr == "wsff" then Ok(WithSupportFreeForce)
    else Err(InvalidMode(modestr))
  }

  /** The self-support selector: accepts exactly p, p2, h, h2, oh and oh2. */
  function ParseSSMode(modestr: string): (r: Result<SSMode>)
    ensures r.Ok? <==> modestr in SSModeNames
    ensures r.Ok? ==> SSModeName(r.value) == modestr
    ensures r.Err? ==> r.error == InvalidMode(modestr)
  {
    if modestr == "p" then Ok(PNorm)
    else if modestr == "p2" then Ok(PNorm2)
    else if modestr == "h" then Ok(HFunction)
    else if modestr == "h2" then Ok(HFunction2)
    else if modestr == "oh" then Ok(Overhang)
    else if modestr == "oh2" then Ok(Overhang2)
    else Err(InvalidMode(modestr))
  }

  /** The drip selector: the six self-support names plus exp and exp2. */
  function ParseDripMode(modestr: string): (r: Result<DripMode>)
    ensures r.Ok? <==> modestr in DripModeNames
    ensures r.Ok? ==> DripModeName(r.value) == modestr
    ensures r.Err? ==> r.error == InvalidMode(modestr)
  {
    if modestr == "p" then Ok(PNormDrip)
    else if modestr == "p2" then Ok(PNorm2Drip)
    else if modestr == "h" then Ok(HFunctionDrip)
    else if modestr == "h2" then Ok(HFunction2Drip)
    else if modestr == "oh" then Ok(OverhangDrip)
    else if modestr == "oh2" then Ok(Overhang2Drip)
    else if modestr == "exp" then Ok(ExpDrip)
    else if modestr == "exp2" then Ok(Exp2Drip)
    else Err(InvalidMode(modestr))
  }

  /** Every work mode is selected by its own name, so the selector is onto and,
      with the ensures of ParseWorkMode, one-to-one. */
  lemma WorkModeRoundTrip(m: WorkMode)
    ensures ParseWorkMode(WorkModeName(m)) == Ok(m)
  {
  }

  lemma SSModeRoundTrip(m: SSMode)
    ensures ParseSSMode(SSModeName(m)) == Ok(m)
  {
  }

  lemma DripModeRoundTrip(m: DripMode)
    ensures ParseDripMode(DripModeName(m)) == Ok(m)
  {
  }

  /** The drip selector accepts a string exactly when the self-support selector
      does or the string is one of the two exponential names, and on the shared
      names both select the aggregation of the same name. */
  lemma DripExtendsSelfSupport(modestr: string)
    ensures ParseDripMode(modestr).Ok? <==> ParseSSMode(modestr).Ok? || modestr == "exp" || modestr == "exp2"
    ensures ParseSSMode(modestr).Ok? ==> DripModeName(ParseDripMode(modestr).value) == SSModeName(ParseSSMode(modestr).value)
  {
  }
}
