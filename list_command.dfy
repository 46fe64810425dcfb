/**
 * `kube-score list`: one CSV record per registered check, in registration
 * order, holding the check's ID, target type, comment and whether it runs by
 * default or only when enabled.
 */
module ListCommand {

  /** The fields of a registered check that the listing prints. */
  datatype Check = Check(id: string, targetType: string, comment: string, optional: bool)

  /** One CSV record. */
  type Row = seq<string>

  /** The record written for one check. */
  function CheckRow(c: Check): (row: Row)
    ensures |row| == 4
    ensures row[0] == c.id && row[1] == c.targetType && row[2] == c.comment
    ensures row[3] == "optional" <==> c.optional
    ensures row[3] == "default" <==> !c.optional
  {
    [c.id, c.targetType, c.comment, if c.optional then "optional" else "default"]
  }

  /** The records written for a list of checks, the last check's record last. */
  function CheckRows(checks: seq<Check>): (rows: seq<Row>)
    ensures |rows| == |checks|
  {
    if checks == [] then []
    else CheckRows(checks[..|checks| - 1]) + [CheckRow(checks[|checks| - 1])]
  }

  /** One record per check, the i-th record for the i-th check. */
  lemma {:induction false} CheckRowsAt(checks: seq<Check>, i: nat)
    requires i < |checks|
    ensures CheckRows(checks)[i] == CheckRow(checks[i])
  {
    var init := checks[..|checks| - 1];
    if i < |init| {
      CheckRowsAt(init, i);
    }
  }

  /**
   * `listChecks`: with `--help` only the usage is printed; otherwise one
   * record per check of `All()`, in that order.
   */
  method ListChecks(printHelp: bool, allChecks: seq<Check>) returns (rows: seq<Row>)
    ensures printHelp ==> rows == []
    ensures !printHelp ==> |rows| == |allChecks|
    ensures !printHelp ==> forall i | 0 <= i < |allChecks| :: rows[i] == CheckRow(allChecks[i])
  {
    rows := [];
    if printHelp {
      return;
    }
    for i := 0 to |allChecks|
      invariant rows == CheckRows(allChecks[..i])
    {
      assert allChecks[..i + 1][..i] == allChecks[..i];
      rows := rows + [CheckRow(allChecks[i])];
    }
    assert allChecks[..|allChecks|] == allChecks;
    forall i | 0 <= i < |allChecks| ensures rows[i] == CheckRow(allChecks[i]) {
      CheckRowsAt(allChecks, i);
    }
  }
}
