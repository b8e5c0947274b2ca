/** The config-activation gate: whether `formId` is required, decided once per
    process by looking at the form configuration table. Every failure leaves
    the gate inactive. */
module Gate {
  import opened Wrappers

  /** What `describeTable` did: threw, or answered with or without a `Table`. */
  datatype DescribeOutcome = DescribeThrew | Described(hasTable: bool)

  /** What `scan` did: threw, or answered with an optional `Count`. */
  datatype ScanOutcome = ScanThrew | Scanned(count: Option<int>)

  /** A request made to the configuration store. */
  datatype ConfigCall = DescribeTable(table: string) | ScanTable(table: string)

  datatype Decision = Decision(active: bool, calls: seq<ConfigCall>)

  /** The gate is active exactly when the table is named, exists, and a scan
      reports a positive count. */
  ghost predicate Populated(tableName: Option<string>, describe: DescribeOutcome, scan: ScanOutcome) {
    && IsSet(tableName)
    && describe == Described(true)
    && scan.Scanned? && scan.count.Some? && scan.count.value > 0
  }

  /** One resolution of the gate. The outcomes of calls that are never made
      are ignored. */
  function CheckIfFormConfigActive(tableName: Option<string>, describe: DescribeOutcome, scan: ScanOutcome): (d: Decision)
    ensures d.active <==> Populated(tableName, describe, scan)
    ensures !IsSet(tableName) ==> d.calls == []
    ensures IsSet(tableName) ==> 1 <= |d.calls| <= 2 && d.calls[0] == DescribeTable(tableName.value)
    ensures |d.calls| == 2 <==> IsSet(tableName) && describe == Described(true)
    ensures |d.calls| == 2 ==> d.calls[1] == ScanTable(tableName.value)
  {
    if !IsSet(tableName) then Decision(false, [])
    else
      var name := tableName.value;
      match describe
      case DescribeThrew => Decision(false, [DescribeTable(name)])
      case Described(hasTable) =>
        if !hasTable then Decision(false, [DescribeTable(name)])
        else
          var calls := [DescribeTable(name), ScanTable(name)];
          match scan
          case ScanThrew => Decision(false, calls)
          case Scanned(count) =>
            if count.Some? && count.value > 0 then Decision(true, calls) else Decision(false, calls)
  }

  /** Fail-open: whatever goes wrong, the gate ends up inactive. */
  lemma FailOpen(tableName: Option<string>, describe: DescribeOutcome, scan: ScanOutcome)
    requires || !IsSet(tableName)
             || describe == DescribeThrew
             || describe == Described(false)
             || scan == ScanThrew
             || scan == Scanned(None)
             || (scan.Scanned? && scan.count.Some? && scan.count.value <= 0)
    ensures !CheckIfFormConfigActive(tableName, describe, scan).active
  {
  }

  /** The cached gate (`isFormConfigActive`): `None` is the initial `null`.
      Only an unresolved cache consults the store. */
  function Resolve(cache: Option<bool>, tableName: Option<string>, describe: DescribeOutcome, scan: ScanOutcome): (d: Decision)
    ensures cache.Some? ==> d.active == cache.value && d.calls == []
    ensures cache.None? ==> (d.active <==> Populated(tableName, describe, scan))
    ensures cache.None? ==> d.calls == CheckIfFormConfigActive(tableName, describe, scan).calls
    ensures |d.calls| <= 2
  {
    match cache
    case Some(active) => Decision(active, [])
    case None => CheckIfFormConfigActive(tableName, describe, scan)
  }
}
