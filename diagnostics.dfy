/** The diagnostics the editor hands the dumper, and the flat record the
    dumper writes for each of them into `vscode-diagnostics.json`. */
module Diagnostics {
  import opened Wrappers

  /** A zero-based line and character offset in a document. */
  datatype Position = Position(line: nat, character: nat)

  datatype Range = Range(start: Position, end: Position)

  /** The scalar a diagnostic code carries: a string or a number. */
  datatype CodeValue = Str(s: string) | Num(n: int)

  /** A diagnostic's `code`: absent, a bare string or number, or an object
      `{ value, target }` whose `target` links to documentation. */
  datatype DiagnosticCode =
    | NoCode
    | Plain(v: CodeValue)
    | Linked(value: CodeValue, target: string)

  /** A diagnostic as the editor reports it; `severity` is the numeric value
      of the editor's severity enumeration. */
  datatype Diagnostic = Diagnostic(
    message: string,
    severity: int,
    source: Option<string>,
    code: DiagnosticCode,
    range: Range)

  /** One element of the editor's diagnostics list: a file's path and the
      diagnostics currently reported for it. */
  datatype FileDiagnostics = FileDiagnostics(path: string, diagnostics: seq<Diagnostic>)

  /** The record written for one diagnostic. */
  datatype DumpedDiagnostic = DumpedDiagnostic(
    message: string,
    severity: int,
    level: Option<string>,
    source: Option<string>,
    code: Option<CodeValue>,
    start: Position,
    end: Position)

  /** The record written for one file. */
  datatype Entry = Entry(file: string, diagnostics: seq<DumpedDiagnostic>)

  /** The editor's severity enumeration, name to number. */
  function SeverityNumber(name: string): Option<int> {
    match name
    case "Error" => Some(0)
    case "Warning" => Some(1)
    case "Information" => Some(2)
    case "Hint" => Some(3)
    case _ => None
  }

  /** The reverse lookup `DiagnosticSeverity[severity]`: the member name of a
      numeric severity, absent for a number that is not a member. */
  function LevelName(severity: int): (r: Option<string>)
    ensures r.Some? <==> 0 <= severity <= 3
    ensures r.Some? ==> SeverityNumber(r.value) == Some(severity)
  {
    match severity
    case 0 => Some("Error")
    case 1 => Some("Warning")
    case 2 => Some("Information")
    case 3 => Some("Hint")
    case _ => None
  }

  /** The reverse lookup inverts the enumeration on every member name. */
  lemma LevelNameInvertsSeverityNumber(name: string)
    requires SeverityNumber(name).Some?
    ensures LevelName(SeverityNumber(name).value) == Some(name)
  {
  }

  /** The code written out: the `value` of an object code, the code itself
      otherwise, absent when the diagnostic has none. */
  function NormaliseCode(c: DiagnosticCode): (r: Option<CodeValue>)
    ensures r.None? <==> c.NoCode?
    ensures c.Linked? ==> r == Some(c.value)
    ensures c.Plain? ==> r == Some(c.v)
  {
    match c
    case NoCode => None
    case Plain(v) => Some(v)
    case Linked(value, _) => Some(value)
  }

  /** The code of a diagnostic once its documentation link is dropped. */
  function Unlinked(c: DiagnosticCode): DiagnosticCode {
    match c
    case Linked(value, _) => Plain(value)
    case _ => c
  }

  /** Flattens one diagnostic into the record that is written. */
  function Flatten(d: Diagnostic): DumpedDiagnostic {
    DumpedDiagnostic(
      d.message, d.severity, LevelName(d.severity), d.source,
      NormaliseCode(d.code), d.range.start, d.range.end)
  }

  /** Rebuilds a diagnostic from the record that was written for it. */
  function Unflatten(r: DumpedDiagnostic): Diagnostic {
    Diagnostic(
      r.message, r.severity, r.source,
      match r.code case None => NoCode case Some(v) => Plain(v),
      Range(r.start, r.end))
  }

  /** Reading the written record back gives the diagnostic again, except that
      an object code is written as its bare value (its link target, and the
      fact that it was an object, are lost): message, severity, source, code
      value and both ends of the range are copied unchanged. */
  lemma FlattenRoundTrip(d: Diagnostic)
    ensures Unflatten(Flatten(d)) == d.(code := Unlinked(d.code))
  {
  }

  /** Two diagnostics give the same record exactly when they agree once each
      object code is reduced to its bare value. */
  lemma FlattenIdentifiesUpToLink(d1: Diagnostic, d2: Diagnostic)
    ensures Flatten(d1) == Flatten(d2) <==>
      d1.(code := Unlinked(d1.code)) == d2.(code := Unlinked(d2.code))
  {
  }

  /** Flattens a file's diagnostics one to one and in order. */
  function FlattenAll(ds: seq<Diagnostic>): (rs: seq<DumpedDiagnostic>)
    ensures |rs| == |ds|
    ensures forall k :: 0 <= k < |ds| ==> Unflatten(rs[k]) == ds[k].(code := Unlinked(ds[k].code))
    ensures forall k :: 0 <= k < |ds| ==> rs[k].level == LevelName(ds[k].severity)
  {
    seq(|ds|, k requires 0 <= k < |ds| => Flatten(ds[k]))
  }
}
