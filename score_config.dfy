/**
 * The run configuration `scoreFiles` builds from its flags: the
 * `--ignore-test` and `--enable-optional-test` lists become sets of test IDs
 * (`listToStructMap`), and the ignore-checks annotation is honoured unless
 * `--disable-ignore-checks-annotations` is given.
 */
module ScoreConfig {
  import opened InputFiles

  /** A parsed `--kubernetes-version`, "vMAJOR.MINOR". */
  datatype Semver = Semver(major: nat, minor: nat)

  /** `config.Configuration` as `scoreFiles` fills it in. */
  datatype Configuration = Configuration(
    allFiles: seq<NamedFile>,
    verboseOutput: nat,
    ignoreContainerCpuLimitRequirement: bool,
    ignoreContainerMemoryLimitRequirement: bool,
    ignoredTests: set<string>,
    enabledOptionalTests: set<string>,
    useIgnoreChecksAnnotation: bool,
    kubernetesVersion: Semver)

  /** The test IDs a flag list names, duplicates collapsed. */
  function Elements(items: seq<string>): set<string> {
    set id | id in items
  }

  /** No test ID is listed twice. */
  predicate NoDuplicates(items: seq<string>) {
    forall i, j | 0 <= i < j < |items| :: items[i] != items[j]
  }

  /** `listToStructMap`: one key per listed test ID, each mapped to the empty struct. */
  method ListToStructMap(items: seq<string>) returns (structMap: map<string, ()>)
    ensures structMap.Keys == Elements(items)
  {
    structMap := map[];
    for i := 0 to |items|
      invariant structMap.Keys == Elements(items[..i])
    {
      assert Elements(items[..i + 1]) == Elements(items[..i]) + {items[i]} by {
        assert items[..i + 1] == items[..i] + [items[i]];
      }
      structMap := structMap[items[i] := ()];
    }
    assert items[..|items|] == items;
  }

  /** Listing the same IDs again, or none at all, changes nothing. */
  lemma ElementsCollapse(items: seq<string>, more: seq<string>)
    requires forall i | 0 <= i < |more| :: more[i] in items
    ensures Elements(items + more) == Elements(items)
  {
  }

  /** The set is no larger than the list, and exactly as large when no ID repeats. */
  lemma {:induction false} ElementsCardinality(items: seq<string>)
    ensures |Elements(items)| <= |items|
    ensures |Elements(items)| == |items| <==> NoDuplicates(items)
  {
    if items != [] {
      var head, tail := items[0], items[1..];
      assert items == [head] + tail;
      assert Elements(items) == {head} + Elements(tail);
      ElementsCardinality(tail);
      if head in Elements(tail) {
        var j :| 0 <= j < |tail| && tail[j] == head;
        assert items[0] == items[j + 1];
        assert !NoDuplicates(items);
      } else {
        assert |Elements(items)| == |Elements(tail)| + 1;
        assert NoDuplicates(items) <==> NoDuplicates(tail) by {
          if NoDuplicates(tail) {
            forall i, j | 0 <= i < j < |items| ensures items[i] != items[j] {
              if i > 0 {
                assert items[i] == tail[i - 1] && items[j] == tail[j - 1];
              } else {
                assert items[j] == tail[j - 1];
              }
            }
          }
          if NoDuplicates(items) {
            forall i, j | 0 <= i < j < |tail| ensures tail[i] != tail[j] {
              assert tail[i] == items[i + 1] && tail[j] == items[j + 1];
            }
          }
        }
      }
    }
  }

  /** The `config.Configuration` literal of `scoreFiles`. */
  function BuildConfiguration(
    allFiles: seq<NamedFile>,
    verboseOutput: nat,
    ignoreContainerCpuLimit: bool,
    ignoreContainerMemoryLimit: bool,
    ignoreTests: seq<string>,
    optionalTests: seq<string>,
    disableIgnoreChecksAnnotation: bool,
    kubeVer: Semver): (c: Configuration)
    ensures forall id :: id in c.ignoredTests <==> id in ignoreTests
    ensures forall id :: id in c.enabledOptionalTests <==> id in optionalTests
    ensures c.useIgnoreChecksAnnotation <==> !disableIgnoreChecksAnnotation
    ensures c.allFiles == allFiles && c.kubernetesVersion == kubeVer
    ensures c.verboseOutput == verboseOutput
    ensures c.ignoreContainerCpuLimitRequirement == ignoreContainerCpuLimit
    ensures c.ignoreContainerMemoryLimitRequirement == ignoreContainerMemoryLimit
  {
    Configuration(
      allFiles,
      verboseOutput,
      ignoreContainerCpuLimit,
      ignoreContainerMemoryLimit,
      Elements(ignoreTests),
      Elements(optionalTests),
      !disableIgnoreChecksAnnotation,
      kubeVer)
  }
}
