/** TransformReport: the counters and per-method records of one run. */
module Report {

  /** One instrumented method: its owner written with dots, its name and
      descriptor, and which features were applied to it. */
  datatype TransformedMethod = TransformedMethod(owner: string, name: string, desc: string, entryLog: bool, timing: bool)

  /** The contents of a report at one moment. */
  datatype ReportValue = ReportValue(scannedClasses: int, transformedClasses: int, transformedMethods: int,
                                     methods: seq<TransformedMethod>)

  const EmptyReport: ReportValue := ReportValue(0, 0, 0, [])

  /** The report one class contributes: no class scanned (the jar loop
      counts those), one method counter step per record, and the class
      counted exactly when at least one of its methods was recorded. */
  predicate ClassReportShape(r: ReportValue)
  {
    && r.scannedClasses == 0
    && r.transformedMethods == |r.methods|
    && r.transformedClasses == (if |r.methods| > 0 then 1 else 0)
  }

  /** `a` with the counters of `b` added and the records of `b` appended. */
  function AddReport(a: ReportValue, b: ReportValue): ReportValue
  {
    ReportValue(a.scannedClasses + b.scannedClasses, a.transformedClasses + b.transformedClasses,
                a.transformedMethods + b.transformedMethods, a.methods + b.methods)
  }

  /** The empty report adds nothing, on either side. */
  lemma AddEmptyReport(a: ReportValue)
    ensures AddReport(a, EmptyReport) == a && AddReport(EmptyReport, a) == a
  {
    assert a.methods + [] == a.methods;
  }

  /** Adding reports one after the other is the same as adding their sum. */
  lemma AddReportAssociative(a: ReportValue, b: ReportValue, c: ReportValue)
    ensures AddReport(AddReport(a, b), c) == AddReport(a, AddReport(b, c))
  {
    assert a.methods + b.methods + c.methods == a.methods + (b.methods + c.methods);
  }

  class TransformReport {
    var scannedClasses: int
    var transformedClasses: int
    var transformedMethods: int
    var methods: seq<TransformedMethod>

    /** Every counter starts at zero and there are no records. */
    constructor ()
      ensures Value() == EmptyReport
    {
      scannedClasses := 0;
      transformedClasses := 0;
      transformedMethods := 0;
      methods := [];
    }

    function Value(): ReportValue
      reads this
    {
      ReportValue(scannedClasses, transformedClasses, transformedMethods, methods)
    }
  }
}
