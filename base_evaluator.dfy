/** What every evaluator shares: its name, cut to the 31 characters a spreadsheet sheet name may hold. */
module BaseEvaluator {
  import opened Text

  const SheetNameLimit: nat := 31

  function SheetName(name: string): (r: string)
    ensures |r| <= SheetNameLimit
    ensures StartsWith(name, r)
    ensures |name| <= SheetNameLimit ==> r == name
    ensures |name| > SheetNameLimit ==> |r| == SheetNameLimit
  {
    Truncate(name, SheetNameLimit)
  }

  /** An evaluator: the kind of report it builds and the sheet name it writes to. */
  datatype Evaluator = Evaluator(kind: string, name: string)

  /** The constructors of the evaluators: the kind is kept, the name is cut to a sheet name. */
  function New(kind: string, name: string): (e: Evaluator)
    ensures e.kind == kind
    ensures |e.name| <= SheetNameLimit && StartsWith(name, e.name)
    ensures |name| <= SheetNameLimit ==> e.name == name
  {
    Evaluator(kind, SheetName(name))
  }

  /** Cutting a name that was already cut changes nothing. */
  lemma SheetNameIdempotent(name: string)
    ensures SheetName(SheetName(name)) == SheetName(name)
  {
  }
}
