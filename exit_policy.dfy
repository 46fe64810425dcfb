/**
 * The exit status `kube-score score` chooses from the score card: 1 on any
 * Critical result, 1 on any Warning-or-worse result when
 * `--exit-one-on-warning` is set, 0 otherwise.
 */
module ExitPolicy {

  /**
   * `anyCritical` and `anyWarningOrWorse` are the answers of
   * `AnyBelowOrEqualToGrade(GradeCritical)` and `(GradeWarning)`.
   */
  function ExitCode(anyCritical: bool, anyWarningOrWorse: bool, exitOneOnWarning: bool): (code: int)
    ensures code == 0 || code == 1
    ensures anyCritical ==> code == 1
    ensures !anyCritical ==> (code == 1 <==> exitOneOnWarning && anyWarningOrWorse)
  {
    if anyCritical then 1
    else if exitOneOnWarning && anyWarningOrWorse then 1
    else 0
  }

  /** Setting `--exit-one-on-warning` never turns a failing exit into a passing one. */
  lemma ExitOnWarningOnlyRaises(anyCritical: bool, anyWarningOrWorse: bool)
    ensures ExitCode(anyCritical, anyWarningOrWorse, false) <= ExitCode(anyCritical, anyWarningOrWorse, true)
  {
  }

  /**
   * For answers that come from one score card (a Critical result is also at or
   * below Warning), the flag makes the exit status exactly "any Warning or worse".
   */
  lemma ExitOnWarningMeansAnyWarning(anyCritical: bool, anyWarningOrWorse: bool)
    requires anyCritical ==> anyWarningOrWorse
    ensures ExitCode(anyCritical, anyWarningOrWorse, true) == (if anyWarningOrWorse then 1 else 0)
    ensures ExitCode(anyCritical, anyWarningOrWorse, false) == (if anyCritical then 1 else 0)
  {
  }
}
