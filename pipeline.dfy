/**
 * The driver of the covariance example: `run` submits the mean job, and the
 * covariance job only when the mean job did not fail; `main` hands its
 * arguments to `run` through `ToolRunner`, which first strips Hadoop's generic
 * options, and then exits with status 0 whenever `run` returns. `args` here are
 * the arguments left after that parsing. The outcome of each Hadoop job is an
 * input of the model; exceptions are not.
 */
module Pipeline {

  /** The two jobs, in the order `run` submits them. */
  datatype Phase = MeanPhase | CovariancePhase

  /** How a call ends: returning a status code, or `System.exit` ending the whole process. */
  datatype Ending = Returned(code: int) | Exited(status: int)

  /** The jobs submitted, in order, and how the call ended. */
  datatype Trace = Trace(started: seq<Phase>, ending: Ending)

  /** The one input format token the jobs accept, for image bundles. */
  const BundleFormat: string := "hib"

  /**
   * `runMeanCompute` and `runCovariance`: an unknown input format prints the
   * usage line and exits with status 0 before anything is submitted;
   * otherwise the job is submitted and 0 is returned on success, 1 on failure.
   */
  function RunJob(phase: Phase, fileType: string, succeeds: bool): (t: Trace)
    ensures t.started == (if fileType == BundleFormat then [phase] else [])
    ensures t.ending.Exited? <==> fileType != BundleFormat
    ensures t.ending == Exited(0) || t.ending == Returned(0) || t.ending == Returned(1)
    ensures t.ending == Returned(0) <==> fileType == BundleFormat && succeeds
  {
    if fileType == BundleFormat then Trace([phase], Returned(if succeeds then 0 else 1))
    else Trace([], Exited(0))
  }

  /**
   * `run`: fewer than three arguments print the usage and exit with status 0;
   * then the mean job runs, a result of 1 is returned at once, and otherwise
   * the covariance job runs and its result is returned.
   */
  function Run(args: seq<string>, meanSucceeds: bool, covarianceSucceeds: bool): (t: Trace)
    ensures |args| < 3 ==> t == Trace([], Exited(0))
    ensures t.started == [] || t.started == [MeanPhase] || t.started == [MeanPhase, CovariancePhase]
    ensures CovariancePhase in t.started ==> meanSucceeds
    ensures t.ending.Exited? ==> t.ending.status == 0
    ensures t.ending == Returned(0) <==> |args| >= 3 && args[2] == BundleFormat && meanSucceeds && covarianceSucceeds
  {
    if |args| < 3 then Trace([], Exited(0))
    else
      var mean := RunJob(MeanPhase, args[2], meanSucceeds);
      if mean.ending.Exited? || mean.ending.code == 1 then mean
      else
        var covariance := RunJob(CovariancePhase, args[2], covarianceSucceeds);
        Trace(mean.started + covariance.started, covariance.ending)
  }

  /** With a valid format, a failed mean job is the last thing `run` does and its 1 is returned. */
  lemma RunStopsAfterFailedMean(args: seq<string>, covarianceSucceeds: bool)
    requires |args| >= 3 && args[2] == BundleFormat
    ensures Run(args, false, covarianceSucceeds) == Trace([MeanPhase], Returned(1))
  {
  }

  /** With a valid format and a successful mean job, `run` returns what the covariance job returns. */
  lemma RunReturnsCovarianceResult(args: seq<string>, covarianceSucceeds: bool)
    requires |args| >= 3 && args[2] == BundleFormat
    ensures Run(args, true, covarianceSucceeds)
         == Trace([MeanPhase, CovariancePhase], Returned(if covarianceSucceeds then 0 else 1))
  {
  }

  /** `main`: the status the process exits with, which is 0 on every path on which `run` returns or exits. */
  function MainExitStatus(args: seq<string>, meanSucceeds: bool, covarianceSucceeds: bool): (status: int)
    ensures status == 0
  {
    match Run(args, meanSucceeds, covarianceSucceeds).ending
    case Exited(s) => s
    case Returned(_) => 0
  }

  /**
   * So a failed job is invisible to whoever launched the tool: the mean job
   * fails, `run` returns 1, yet the process exits with 0.
   */
  lemma MainHidesFailure()
    ensures Run(["in", "out", "hib"], false, true).ending == Returned(1)
    ensures MainExitStatus(["in", "out", "hib"], false, true) == 0
  {
  }

  /** `main` as evidently intended: exit with the status `run` returned. */
  function MainExitStatusPropagated(args: seq<string>, meanSucceeds: bool, covarianceSucceeds: bool): (status: int)
    ensures status == 0 || status == 1
    ensures status == 1 <==> |args| >= 3 && args[2] == BundleFormat && !(meanSucceeds && covarianceSucceeds)
  {
    match Run(args, meanSucceeds, covarianceSucceeds).ending
    case Exited(s) => s
    case Returned(code) => code
  }
}
