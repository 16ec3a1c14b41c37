// The registry of official code lists used by strict validation: named lists of codes,
// normalised once on construction and queried by list name and code.
module Codelists {
  import opened Php

  /** A JSON scalar as it can stand in a decoded code list. */
  datatype Scalar = Text(s: string) | Integer(n: int) | Float(x: real) | Flag(b: bool) | Nothing

  /** (string)$code: integers in decimal, floats as PHP writes them, true as "1", false and
    * null as "". */
  function CastText(v: Scalar): string
  {
    match v
    case Text(s) => s
    case Integer(n) => (if n < 0 then "-" else "") + IntToString(Abs(n))
    case Float(x) => NumberText(x)
    case Flag(b) => if b then "1" else ""
    case Nothing => ""
  }

  /** The value stored under a list name in the decoded input: an array of codes, or anything else. */
  datatype ListInput = CodeArray(codes: seq<Scalar>) | NotArray(value: Scalar)

  /** normalizeCode: the form in which codes are stored and looked up. */
  function NormalizeCode(code: string): string
  {
    Upper(Trim(code))
  }

  /** The keys `normalizeLists` gives one list: the normalised text of each of its codes. */
  function CodeSet(codes: seq<Scalar>): set<string>
  {
    if codes == [] then {}
    else CodeSet(codes[..|codes| - 1]) + {NormalizeCode(CastText(codes[|codes| - 1]))}
  }

  /** The normalised lists: every array-valued list under its own name, nothing else. */
  function Normalized(input: map<string, ListInput>): map<string, set<string>>
  {
    map l | l in input && input[l].CodeArray? :: CodeSet(input[l].codes)
  }

  /** Every supplied code is stored in normalised form. */
  lemma {:induction false} CodeSetHas(codes: seq<Scalar>, i: nat)
    requires i < |codes|
    ensures NormalizeCode(CastText(codes[i])) in CodeSet(codes)
    decreases |codes|
  {
    if i < |codes| - 1 {
      var init := codes[..|codes| - 1];
      assert init[i] == codes[i];
      CodeSetHas(init, i);
    }
  }

  /** Nothing else is stored: each stored code comes from some supplied code. */
  lemma {:induction false} CodeSetOnly(codes: seq<Scalar>, c: string)
    requires c in CodeSet(codes)
    ensures exists i :: 0 <= i < |codes| && NormalizeCode(CastText(codes[i])) == c
    decreases |codes|
  {
    var init := codes[..|codes| - 1];
    if c in CodeSet(init) {
      CodeSetOnly(init, c);
      var i :| 0 <= i < |init| && NormalizeCode(CastText(init[i])) == c;
      assert codes[i] == init[i];
    } else {
      assert NormalizeCode(CastText(codes[|codes| - 1])) == c;
    }
  }

  /** Normalising a normalised code changes nothing. */
  lemma NormalizeCodeIdempotent(code: string)
    ensures NormalizeCode(NormalizeCode(code)) == NormalizeCode(code)
  {
    var t := Trim(code);
    TrimUpperCommute(t);
    UpperIdempotent(t);
  }

  /** A query differing only in letter case or surrounding whitespace normalises to the same code. */
  lemma NormalizeCodeIgnores(code: string)
    ensures NormalizeCode(Upper(code)) == NormalizeCode(code)
    ensures NormalizeCode(Trim(code)) == NormalizeCode(code)
  {
    UpperTrimSwap(code);
    UpperIdempotent(Trim(code));
    TrimIdempotent(code);
  }

  class CodelistRegistry {
    var lists: map<string, set<string>>

    /** new CodelistRegistry($lists), the input already decoded. */
    constructor(input: map<string, ListInput>)
      ensures lists == Normalized(input)
    {
      var normalized := NormalizeLists(input);
      lists := normalized;
    }

    /** isLoaded: the list exists and holds at least one code. */
    predicate IsLoaded(listName: string)
      reads this
    {
      listName in lists && lists[listName] != {}
    }

    /** has: the normalised code is in the list; nothing is in a list that is not loaded. */
    predicate Has(listName: string, code: string)
      reads this
      ensures Has(listName, code) ==> IsLoaded(listName)
    {
      IsLoaded(listName) && NormalizeCode(code) in lists[listName]
    }
  }

  /** The inner foreach of normalizeLists: each code of one list cast to text and normalised. */
  method NormalizeCodes(codes: seq<Scalar>) returns (normalized: set<string>)
    ensures normalized == CodeSet(codes)
  {
    normalized := {};
    for i := 0 to |codes|
      invariant normalized == CodeSet(codes[..i])
    {
      assert codes[..i + 1][..i] == codes[..i];
      normalized := normalized + {NormalizeCode(CastText(codes[i]))};
    }
    assert codes[..|codes|] == codes;
  }

  /** normalizeLists: one pass over the lists, skipping those that are not arrays, and a pass
    * over each array adding the normalised codes. */
  method NormalizeLists(input: map<string, ListInput>) returns (normalized: map<string, set<string>>)
    ensures normalized == Normalized(input)
  {
    normalized := map[];
    var todo := input.Keys;
    while todo != {}
      invariant todo <= input.Keys
      invariant forall l :: l in normalized <==> l in input && l !in todo && input[l].CodeArray?
      invariant forall l :: l in normalized ==> normalized[l] == CodeSet(input[l].codes)
      decreases todo
    {
      var listName :| listName in todo;
      todo := todo - {listName};
      if input[listName].CodeArray? {
        var codes := NormalizeCodes(input[listName].codes);
        normalized := normalized[listName := codes];
      }
    }
  }

  // ------------------------------------------------------------ properties of a constructed registry

  /** A list is loaded exactly when the input gave it as a non-empty array; a list given as
    * anything else is dropped. */
  lemma LoadedIff(reg: CodelistRegistry, input: map<string, ListInput>, listName: string)
    requires reg.lists == Normalized(input)
    ensures reg.IsLoaded(listName) <==> listName in input && input[listName].CodeArray? && |input[listName].codes| > 0
  {
    if listName in input && input[listName].CodeArray? {
      var codes := input[listName].codes;
      if |codes| > 0 {
        CodeSetHas(codes, 0);
      }
    }
  }

  /** Every code supplied in an array-valued list is found in that list afterwards. */
  lemma SuppliedCodesFound(reg: CodelistRegistry, input: map<string, ListInput>, listName: string, i: nat)
    requires reg.lists == Normalized(input)
    requires listName in input && input[listName].CodeArray? && i < |input[listName].codes|
    ensures reg.Has(listName, CastText(input[listName].codes[i]))
  {
    CodeSetHas(input[listName].codes, i);
  }

  /** A code is found exactly when some supplied code of that list normalises to the same text. */
  lemma HasIff(reg: CodelistRegistry, input: map<string, ListInput>, listName: string, code: string)
    requires reg.lists == Normalized(input)
    ensures reg.Has(listName, code) <==>
      listName in input && input[listName].CodeArray?
      && exists i :: 0 <= i < |input[listName].codes| && NormalizeCode(CastText(input[listName].codes[i])) == NormalizeCode(code)
  {
    LoadedIff(reg, input, listName);
    if listName in input && input[listName].CodeArray? {
      var codes := input[listName].codes;
      if NormalizeCode(code) in CodeSet(codes) {
        CodeSetOnly(codes, NormalizeCode(code));
      }
      if exists i :: 0 <= i < |codes| && NormalizeCode(CastText(codes[i])) == NormalizeCode(code) {
        var i :| 0 <= i < |codes| && NormalizeCode(CastText(codes[i])) == NormalizeCode(code);
        CodeSetHas(codes, i);
      }
    }
  }

  /** has ignores letter case and surrounding whitespace of the queried code. */
  lemma HasIgnoresCaseAndSpace(reg: CodelistRegistry, listName: string, code: string)
    ensures reg.Has(listName, Upper(code)) == reg.Has(listName, code)
    ensures reg.Has(listName, Trim(code)) == reg.Has(listName, code)
    ensures reg.Has(listName, NormalizeCode(code)) == reg.Has(listName, code)
  {
    NormalizeCodeIgnores(code);
    NormalizeCodeIdempotent(code);
  }
}
