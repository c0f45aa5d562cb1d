/** Signature facts extracted from a declared parameter list, in place of
    Python's `inspect.Signature`: the names without a default, the
    name-to-default mapping, and the variadic collectors. */
module InspectTools {
  import opened PyValues

  /** `inspect.Parameter.kind` */
  datatype ParamKind =
    | PositionalOnly
    | PositionalOrKeyword
    | VarPositional
    | KeywordOnly
    | VarKeyword

  /** One declared parameter; `default` is `None` when Python reports
      `inspect.Parameter.empty`. */
  datatype Param = Param(name: Name, kind: ParamKind, default: Option<Value>)

  /** The parameters of a callable, in declaration order. */
  type Signature = seq<Param>

  function Names(sig: Signature): (r: seq<Name>)
    ensures |r| == |sig|
    ensures forall i :: 0 <= i < |sig| ==> r[i] == sig[i].name
  {
    if sig == [] then [] else [sig[0].name] + Names(sig[1..])
  }

  /** Names of the parameters that have no default, in declaration order. */
  function RequiredNames(sig: Signature): (r: seq<Name>)
    ensures |r| <= |sig|
    ensures forall n :: n in r <==> exists i :: 0 <= i < |sig| && sig[i].default.None? && sig[i].name == n
  {
    if sig == [] then []
    else
      var rest := RequiredNames(sig[1..]);
      assert forall i :: 1 <= i < |sig| ==> sig[i] == sig[1..][i - 1];
      if sig[0].default.None? then [sig[0].name] + rest else rest
  }

  /** The parameters that have a default, each with its default, in
      declaration order. */
  function DefaultPairs(sig: Signature): (r: Dict)
    ensures |r| <= |sig|
    ensures forall n, v :: (n, v) in r <==> exists i :: 0 <= i < |sig| && sig[i].default == Some(v) && sig[i].name == n
  {
    if sig == [] then []
    else
      var rest := DefaultPairs(sig[1..]);
      assert forall i :: 1 <= i < |sig| ==> sig[i] == sig[1..][i - 1];
      if sig[0].default.Some? then [(sig[0].name, sig[0].default.value)] + rest else rest
  }

  /** `get_positional_params(sig, exclude_self)`: the names without a
      default, skipping the first parameter when `excludeSelf` holds.
      Variadic collectors have no default, so they are listed too. */
  function GetPositionalParams(sig: Signature, excludeSelf: bool): (r: seq<Name>)
    ensures forall n :: n in r <==>
      exists i :: (if excludeSelf then 1 else 0) <= i < |sig| && sig[i].default.None? && sig[i].name == n
  {
    if excludeSelf && sig != [] then
      assert forall i :: 1 <= i < |sig| ==> sig[i] == sig[1..][i - 1];
      RequiredNames(sig[1..])
    else RequiredNames(sig)
  }

  /** `get_default_kwargs(sig)`: every parameter with a default, the first
      one included, mapped to that default. */
  function GetDefaultKwargs(sig: Signature): (r: Dict)
    ensures forall n, v :: (n, v) in r <==> exists i :: 0 <= i < |sig| && sig[i].default == Some(v) && sig[i].name == n
  {
    DefaultPairs(sig)
  }

  /** Some parameter is a `**` collector: what `has_var_keyword`, which
      the flexible method imports from this module, must answer. */
  predicate HasVarKeyword(sig: Signature) {
    exists i :: 0 <= i < |sig| && sig[i].kind == VarKeyword
  }

  /** `has_kwargs(sig)`: the search loop that stops at the first `**`
      collector. */
  method HasKwargs(sig: Signature) returns (r: bool)
    ensures r <==> exists i :: 0 <= i < |sig| && sig[i].kind == VarKeyword
  {
    for i := 0 to |sig|
      invariant forall j :: 0 <= j < i ==> sig[j].kind != VarKeyword
    {
      if sig[i].kind == VarKeyword {
        return true;
      }
    }
    return false;
  }

  /** The name of the first parameter of the given kind, if any. */
  function FirstOfKind(sig: Signature, kind: ParamKind): (r: Option<Name>)
    ensures r.None? <==> forall i :: 0 <= i < |sig| ==> sig[i].kind != kind
    ensures r.Some? ==> exists i :: 0 <= i < |sig| && sig[i].kind == kind && sig[i].name == r.value
  {
    if sig == [] then None
    else if sig[0].kind == kind then Some(sig[0].name)
    else
      var rest := FirstOfKind(sig[1..], kind);
      assert forall i :: 1 <= i < |sig| ==> sig[i] == sig[1..][i - 1];
      rest
  }

  /** `get_var_params(sig)`, which the flexible method imports from this
      module: the names of the `*` and `**` collectors. */
  function GetVarParams(sig: Signature): (r: (Option<Name>, Option<Name>))
    ensures r.0.None? <==> forall i :: 0 <= i < |sig| ==> sig[i].kind != VarPositional
    ensures r.1.Some? <==> HasVarKeyword(sig)
  {
    (FirstOfKind(sig, VarPositional), FirstOfKind(sig, VarKeyword))
  }

  /** A collector never has a default, as in every Python function. */
  predicate CollectorsWithoutDefault(sig: Signature) {
    forall i :: 0 <= i < |sig| && sig[i].kind in {VarPositional, VarKeyword} ==> sig[i].default.None?
  }

  /** The place of each kind in the order `inspect.Signature` demands. */
  function KindRank(k: ParamKind): nat {
    match k
    case PositionalOnly => 0
    case PositionalOrKeyword => 1
    case VarPositional => 2
    case KeywordOnly => 3
    case VarKeyword => 4
  }

  predicate Positional(k: ParamKind) {
    k == PositionalOnly || k == PositionalOrKeyword
  }

  /** The parameter lists `inspect.Signature(parameters)` accepts; it
      raises ValueError for any other: the names are distinct, the kinds
      never step back, and no positional parameter without a default
      follows a positional parameter with one. */
  predicate ValidSignature(sig: Signature) {
    && (forall i, j :: 0 <= i < j < |sig| ==> sig[i].name != sig[j].name)
    && (forall i, j :: 0 <= i < j < |sig| ==> KindRank(sig[i].kind) <= KindRank(sig[j].kind))
    && (forall i, j :: 0 <= i < j < |sig| && Positional(sig[i].kind) && sig[i].default.Some? && Positional(sig[j].kind) ==>
          sig[j].default.Some?)
  }

  /** Leaving out one entry keeps a parameter list acceptable: every
      pair of the shorter list is a pair of the longer one, in the same
      order. */
  lemma ValidWithout(a: Signature, c: Signature, b: Signature)
    requires |c| <= 1 && ValidSignature(a + c + b)
    ensures ValidSignature(a + b)
  {
    var s, t := a + c + b, a + b;
    forall i | 0 <= i < |t|
      ensures t[i] == s[if i < |a| then i else i + |c|]
    {
    }
  }

  /** The required-name filter keeps declaration order: it distributes over
      concatenation. */
  lemma {:induction false} RequiredNamesAppend(a: Signature, b: Signature)
    ensures RequiredNames(a + b) == RequiredNames(a) + RequiredNames(b)
  {
    if a != [] {
      assert (a + b)[1..] == a[1..] + b;
      RequiredNamesAppend(a[1..], b);
    } else {
      assert a + b == b;
    }
  }

  /** The default filter keeps declaration order too. */
  lemma {:induction false} DefaultPairsAppend(a: Signature, b: Signature)
    ensures DefaultPairs(a + b) == DefaultPairs(a) + DefaultPairs(b)
  {
    if a != [] {
      assert (a + b)[1..] == a[1..] + b;
      DefaultPairsAppend(a[1..], b);
    } else {
      assert a + b == b;
    }
  }

  /** Without `exclude_self`, the positional names and the defaulted names
      split the parameter names between them: every name is in exactly one
      of the two results, as often as it is declared. */
  lemma {:induction false} PositionalAndDefaultsPartition(sig: Signature)
    ensures multiset(Names(sig)) == multiset(GetPositionalParams(sig, false)) + multiset(Keys(GetDefaultKwargs(sig)))
  {
    if sig != [] {
      PositionalAndDefaultsPartition(sig[1..]);
      assert Names(sig) == [sig[0].name] + Names(sig[1..]);
      if sig[0].default.Some? {
        assert DefaultPairs(sig) == [(sig[0].name, sig[0].default.value)] + DefaultPairs(sig[1..]);
        assert Keys(DefaultPairs(sig)) == [sig[0].name] + Keys(DefaultPairs(sig[1..]));
      } else {
        assert RequiredNames(sig) == [sig[0].name] + RequiredNames(sig[1..]);
      }
    }
  }

  // ---------------------------------------------------------------------
  // What the decorators import from this module

  /** The names this module defines. */
  const DefinedNames: seq<Name> := ["get_positional_params", "get_default_kwargs", "has_kwargs"]

  /** The names the flexible method imports from this module. */
  const FlexImports: seq<Name> := ["has_var_keyword", "get_positional_params", "get_default_kwargs", "get_var_params"]

  /** The names the untyped decorator imports from this module. */
  const UntypedImports: seq<Name> := ["get_positional_params", "get_default_kwargs", "has_kwargs"]

  /** `from module import a, b, ...`: ImportError naming the first wanted
      name the module does not define, or nothing when it defines them
      all. */
  function ImportFrom(defined: seq<Name>, wanted: seq<Name>): (r: Option<Error>)
    ensures r.None? <==> forall i :: 0 <= i < |wanted| ==> wanted[i] in defined
    ensures r.Some? ==> exists i :: (0 <= i < |wanted| && wanted[i] !in defined &&
      r.value == PyError(ImportError, wanted[i]) && forall j :: 0 <= j < i ==> wanted[j] in defined)
  {
    if wanted == [] then None
    else if wanted[0] !in defined then Some(PyError(ImportError, wanted[0]))
    else
      var rest := ImportFrom(defined, wanted[1..]);
      assert forall i :: 1 <= i < |wanted| ==> wanted[i] == wanted[1..][i - 1];
      rest
  }

  /** As written, the flexible method's import stops at its first name:
      this module defines no `has_var_keyword`, so importing the flexible
      method raises ImportError. */
  lemma FlexImportFails()
    ensures ImportFrom(DefinedNames, FlexImports) == Some(PyError(ImportError, "has_var_keyword"))
  {
    assert "has_var_keyword" !in DefinedNames by {
      assert |"has_var_keyword"| != |"get_positional_params"|;
      assert "has_var_keyword"[0] != "get_default_kwargs"[0];
      assert "has_var_keyword"[4] != "has_kwargs"[4];
    }
  }

  /** The untyped decorator imports only names this module defines. */
  lemma UntypedImportSucceeds()
    ensures ImportFrom(DefinedNames, UntypedImports) == None
  {
  }

  /** The module as the flexible method needs it: `has_var_keyword` and
      `get_var_params` defined beside the three functions, modelled here
      by `HasVarKeyword` and `GetVarParams`. Every import then succeeds. */
  const CorrectedNames: seq<Name> := DefinedNames + ["has_var_keyword", "get_var_params"]

  lemma FlexImportCorrected()
    ensures ImportFrom(CorrectedNames, FlexImports) == None
    ensures ImportFrom(CorrectedNames, UntypedImports) == None
  {
    assert forall i :: 0 <= i < |FlexImports| ==> FlexImports[i] in CorrectedNames by {
      assert CorrectedNames == ["get_positional_params", "get_default_kwargs", "has_kwargs", "has_var_keyword", "get_var_params"];
    }
  }
}
