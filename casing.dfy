/**
 * Selection of the case convention applied to variable names
 * (`Tmplhate.LoadCaser` in core/tmplhate.go).
 */
module Casing {
  import opened Wrappers

  /** The three conventions the configuration can name. */
  datatype CaseKind = Lower | Upper | Title

  /** The configuration spelling of each convention. */
  function CaseName(kind: CaseKind): string
  {
    match kind
    case Lower => "lower"
    case Upper => "upper"
    case Title => "title"
  }

  /**
   * The switch of `LoadCaser`: exactly the three spellings select a
   * convention, and every other string (the empty string and other
   * capitalisations included) is rejected.
   */
  function ParseCase(name: string): (r: Option<CaseKind>)
    ensures r.Some? <==> name == "lower" || name == "upper" || name == "title"
    ensures r.Some? ==> CaseName(r.value) == name
  {
    if name == "lower" then Some(Lower)
    else if name == "upper" then Some(Upper)
    else if name == "title" then Some(Title)
    else None
  }

  /** Every convention is selected by its own name, and only by it. */
  lemma ParseCaseName(kind: CaseKind, name: string)
    ensures ParseCase(CaseName(kind)) == Some(kind)
    ensures ParseCase(name) == Some(kind) <==> name == CaseName(kind)
  {
  }

  /**
   * The Unicode case mappings of golang.org/x/text/cases for the
   * renderer's language tag. Their internals are not part of this model:
   * they are supplied as opaque string transforms.
   */
  datatype CaseLibrary = CaseLibrary(lower: string -> string, upper: string -> string, title: string -> string)
  {
    /** The transform a caser of the given convention applies. */
    function Transform(kind: CaseKind): string -> string
    {
      match kind
      case Lower => lower
      case Upper => upper
      case Title => title
    }
  }

  /** Applying the transform twice is the same as applying it once. */
  ghost predicate Idempotent(f: string -> string)
  {
    forall s :: f(f(s)) == f(s)
  }

  /** The name transform used when normalisation is switched off. */
  function Identity(s: string): string
  {
    s
  }
}
