/** The configuration entry points of the driver. The C++ driver keeps this state
    in process-wide singletons (the grid hierarchy and a parameter record); here
    it is one explicit object whose setters change only the field they own. */
module Settings {
  import opened Outcomes
  import opened Modes

  /** The parameters the modelled control logic reads, plus the derived
      iso-surface level of the spline field. */
  datatype Parameters = Parameters(
    volumeRatio: real,
    volumeDecrease: real,
    minCoeff: real,
    maxCoeff: real,
    isosurfaceValue: real)

  /** The parameter record before any setter ran (static storage is zero-initialised). */
  const ZeroParameters := Parameters(0.0, 0.0, 0.0, 0.0, 0.0)

  /** Iso-surface level derived from the spline coefficient bounds: equidistant
      from both bounds, hence between them whenever they are ordered. */
  function IsosurfaceValue(minCoeff: real, maxCoeff: real): (v: real)
    ensures v - minCoeff == maxCoeff - v
    ensures minCoeff <= maxCoeff ==> minCoeff <= v <= maxCoeff
  {
    (minCoeff + maxCoeff) / 2.0
  }

  predicate IsSeparator(c: char) {
    c == '\\' || c == '/'
  }

  predicate EndsWithSeparator(path: string) {
    |path| > 0 && IsSeparator(path[|path| - 1])
  }

  /** The output directory as the driver stores it: the given path when it already
      ends in a separator, otherwise the path with one backslash appended. */
  function WithTrailingSeparator(dirname: string): (outdir: string)
    requires |dirname| > 0
    ensures EndsWithSeparator(outdir)
    ensures |outdir| == if EndsWithSeparator(dirname) then |dirname| else |dirname| + 1
    ensures outdir[..|dirname|] == dirname
    ensures !EndsWithSeparator(dirname) ==> outdir[|dirname|] == '\\'
  {
    if EndsWithSeparator(dirname) then dirname else dirname + ['\\']
  }

  /** Normalising twice changes nothing more. */
  lemma TrailingSeparatorIdempotent(dirname: string)
    requires |dirname| > 0
    ensures WithTrailingSeparator(WithTrailingSeparator(dirname)) == WithTrailingSeparator(dirname)
  {
  }

  class Configuration {
    var workMode: Option<WorkMode>
    var ssMode: Option<SSMode>
    var dripMode: Option<DripMode>
    var outPath: string
    var params: Parameters

    /** The state before any setter ran: no mode chosen by the driver, no output
        path, zeroed parameters. */
    constructor ()
      ensures workMode == None && ssMode == None && dripMode == None
      ensures outPath == [] && params == ZeroParameters
    {
      workMode, ssMode, dripMode := None, None, None;
      outPath := [];
      params := ZeroParameters;
    }

    /** Stores the parameters and derives the iso-surface level from the
        coefficient bounds. */
    method SetParameters(volumeRatio: real, volumeDecrease: real, minCoeff: real, maxCoeff: real)
      modifies this`params
      ensures params == Parameters(volumeRatio, volumeDecrease, minCoeff, maxCoeff, IsosurfaceValue(minCoeff, maxCoeff))
    {
      params := Parameters(volumeRatio, volumeDecrease, minCoeff, maxCoeff, IsosurfaceValue(minCoeff, maxCoeff));
    }

    /** Normalises the directory name in place and records it as the output path. */
    method SetOutputDir(dirname: string)
      requires |dirname| > 0
      modifies this`outPath
      ensures outPath == WithTrailingSeparator(dirname)
    {
      var outdir := dirname;
      var lastChar := outdir[|outdir| - 1];
      if lastChar != '\\' && lastChar != '/' {
        outdir := outdir + ['\\'];
      }
      outPath := outdir;
    }

    /** Selects the work mode; an unsupported name is reported and leaves the
        previous selection in place. */
    method SetWorkMode(modestr: string) returns (r: Result<WorkMode>)
      modifies this`workMode
      ensures r == ParseWorkMode(modestr)
      ensures workMode == if r.Ok? then Some(r.value) else old(workMode)
    {
      r := ParseWorkMode(modestr);
      if r.Ok? {
        workMode := Some(r.value);
      }
    }

    method SetSSMode(modestr: string) returns (r: Result<SSMode>)
      modifies this`ssMode
      ensures r == ParseSSMode(modestr)
      ensures ssMode == if r.Ok? then Some(r.value) else old(ssMode)
    {
      r := ParseSSMode(modestr);
      if r.Ok? {
        ssMode := Some(r.value);
      }
    }

    method SetDripMode(modestr: string) returns (r: Result<DripMode>)
      modifies this`dripMode
      ensures r == ParseDripMode(modestr)
      ensures dripMode == if r.Ok? then Some(r.value) else old(dripMode)
    {
      r := ParseDripMode(modestr);
      if r.Ok? {
        dripMode := Some(r.value);
      }
    }
  }
}
