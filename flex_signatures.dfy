/** The static signatures the parsers of the flexible-method engine
    synthesize, as lists of parameters. */
module FlexSignatures {
  import opened PyValues
  import opened InspectTools
  import opened FlexParsers

  /** Names, all positional-or-keyword and without default. */
  function PlainParams(names: seq<Name>): (r: Signature)
    ensures |r| == |names|
  {
    seq(|names|, i requires 0 <= i < |names| => Param(names[i], PositionalOrKeyword, None))
  }

  /** Entries of a dict, positional-or-keyword with their defaults. */
  function PlainDefaults(d: Dict): (r: Signature)
    ensures |r| == |d|
  {
    seq(|d|, i requires 0 <= i < |d| => Param(d[i].0, PositionalOrKeyword, Some(d[i].1)))
  }

  /** A collector entry when the function has one. */
  function Collector(name: Option<Name>, kind: ParamKind): (r: Signature)
    ensures |r| <= 1
  {
    match name
    case None => []
    case Some(n) => [Param(n, kind, None)]
  }

  /** The name the full-signature strategy exposes for configuration
      name `n`: the name itself when it is a parameter of the function,
      otherwise the name qualified with the prefix. */
  function FullName(p: Parser, n: Name): Name {
    if n !in Keys(p.funcDefaults) && n !in p.funcParams then ParamMod(p.prefix, n) else n
  }

  /** Names each qualified with the prefix. */
  function QualifiedNames(prefix: Name, names: seq<Name>): (r: seq<Name>)
    ensures |r| == |names|
    ensures forall i :: 0 <= i < |names| ==> r[i] == ParamMod(prefix, names[i])
  {
    seq(|names|, i requires 0 <= i < |names| => ParamMod(prefix, names[i]))
  }

  /** Dict entries with their names qualified with the prefix. */
  function QualifiedDefaults(prefix: Name, d: Dict): (r: Dict)
    ensures |r| == |d|
    ensures forall i :: 0 <= i < |d| ==> r[i] == (ParamMod(prefix, d[i].0), d[i].1)
  {
    seq(|d|, i requires 0 <= i < |d| => (ParamMod(prefix, d[i].0), d[i].1))
  }

  /** Names as the full-signature strategy exposes them. */
  function FullNames(p: Parser, names: seq<Name>): (r: seq<Name>)
    ensures |r| == |names|
    ensures forall i :: 0 <= i < |names| ==> r[i] == FullName(p, names[i])
  {
    seq(|names|, i requires 0 <= i < |names| => FullName(p, names[i]))
  }

  /** Dict entries named as the full-signature strategy exposes them. */
  function FullDefaults(p: Parser, d: Dict): (r: Dict)
    ensures |r| == |d|
    ensures forall i :: 0 <= i < |d| ==> r[i] == (FullName(p, d[i].0), d[i].1)
  {
    seq(|d|, i requires 0 <= i < |d| => (FullName(p, d[i].0), d[i].1))
  }

  /** `SignatureInjectParser.create_static_signature`: qualified static
      names, the function's required names, its `*` collector, qualified
      static defaults, the function's defaults, its `**` collector. */
  function InjectSignature(p: Parser): Signature {
    var sp := p.config.staticParams;
    var sd := p.config.staticDefaults;
    PlainParams(QualifiedNames(p.prefix, sp))
    + PlainParams(p.funcParams)
    + Collector(p.funcVars.0, VarPositional)
    + PlainDefaults(QualifiedDefaults(p.prefix, sd))
    + PlainDefaults(p.funcDefaults)
    + Collector(p.funcVars.1, VarKeyword)
  }

  /** `FullSignatureParser.create_static_signature`: the configuration in
      its own order, names of function parameters kept and the others
      qualified, with the two collectors. */
  function FullStaticSignature(p: Parser): Signature {
    var sp := p.config.staticParams;
    var sd := p.config.staticDefaults;
    PlainParams(FullNames(p, sp))
    + Collector(p.funcVars.0, VarPositional)
    + PlainDefaults(FullDefaults(p, sd))
    + Collector(p.funcVars.1, VarKeyword)
  }

  /** The static signature each parser stores; the dummy parser keeps the
      function's own. */
  function StaticSignature(p: Parser): Signature {
    match p.kind
    case Dummy => p.funcSignature
    case FullSignature => FullStaticSignature(p)
    case SignatureInject => InjectSignature(p)
  }

  /** Required positional-or-keyword entries followed by ones with
      defaults, under distinct names, make a valid signature. */
  lemma PlainValid(a: Signature, b: Signature)
    requires forall i :: 0 <= i < |a| ==> a[i].kind == PositionalOrKeyword && a[i].default.None?
    requires forall i :: 0 <= i < |b| ==> b[i].kind == PositionalOrKeyword && b[i].default.Some?
    requires forall i, j :: 0 <= i < j < |a + b| ==> (a + b)[i].name != (a + b)[j].name
    ensures ValidSignature(a + b)
  {
    var s := a + b;
    assert forall i :: 0 <= i < |s| ==> s[i].kind == PositionalOrKeyword && (s[i].default.Some? <==> i >= |a|);
  }

  /** Without collectors, a synthesized static signature is valid exactly
      when its names are distinct: every entry is positional-or-keyword
      and the entries with defaults come last. */
  lemma PlainSignatureValid(p: Parser)
    requires p.kind != Dummy && p.funcVars == (None, None)
    requires forall i, j :: 0 <= i < j < |StaticSignature(p)| ==> StaticSignature(p)[i].name != StaticSignature(p)[j].name
    ensures ValidSignature(StaticSignature(p))
  {
    if p.kind == SignatureInject {
      var a := PlainParams(QualifiedNames(p.prefix, p.config.staticParams)) + PlainParams(p.funcParams);
      var b := PlainDefaults(QualifiedDefaults(p.prefix, p.config.staticDefaults)) + PlainDefaults(p.funcDefaults);
      assert StaticSignature(p) == a + b;
      PlainValid(a, b);
    } else {
      var a := PlainParams(FullNames(p, p.config.staticParams));
      var b := PlainDefaults(FullDefaults(p, p.config.staticDefaults));
      assert StaticSignature(p) == a + b;
      PlainValid(a, b);
    }
  }

  lemma PlainParamsSnoc(names: seq<Name>, n: Name)
    ensures PlainParams(names + [n]) == PlainParams(names) + [Param(n, PositionalOrKeyword, None)]
  {
  }

  lemma PlainDefaultsSnoc(d: Dict, e: (Name, Value))
    ensures PlainDefaults(d + [e]) == PlainDefaults(d) + [Param(e.0, PositionalOrKeyword, Some(e.1))]
  {
  }

  // The appending loops of `create_static_signature`, one per group of
  // entries.

  method AppendQualified(parameters: Signature, prefix: Name, names: seq<Name>) returns (r: Signature)
    ensures r == parameters + PlainParams(QualifiedNames(prefix, names))
  {
    r := parameters;
    for i := 0 to |names|
      invariant r == parameters + PlainParams(QualifiedNames(prefix, names[..i]))
    {
      var name := ParamMod(prefix, names[i]);
      r := r + [Param(name, PositionalOrKeyword, None)];
      assert QualifiedNames(prefix, names[..i + 1]) == QualifiedNames(prefix, names[..i]) + [name];
      PlainParamsSnoc(QualifiedNames(prefix, names[..i]), name);
    }
    assert names[..|names|] == names;
  }

  method AppendPlain(parameters: Signature, names: seq<Name>) returns (r: Signature)
    ensures r == parameters + PlainParams(names)
  {
    r := parameters;
    for i := 0 to |names|
      invariant r == parameters + PlainParams(names[..i])
    {
      r := r + [Param(names[i], PositionalOrKeyword, None)];
      assert names[..i + 1] == names[..i] + [names[i]];
      PlainParamsSnoc(names[..i], names[i]);
    }
    assert names[..|names|] == names;
  }

  method AppendQualifiedDefaults(parameters: Signature, prefix: Name, d: Dict) returns (r: Signature)
    ensures r == parameters + PlainDefaults(QualifiedDefaults(prefix, d))
  {
    r := parameters;
    for i := 0 to |d|
      invariant r == parameters + PlainDefaults(QualifiedDefaults(prefix, d[..i]))
    {
      var name := ParamMod(prefix, d[i].0);
      r := r + [Param(name, PositionalOrKeyword, Some(d[i].1))];
      assert QualifiedDefaults(prefix, d[..i + 1]) == QualifiedDefaults(prefix, d[..i]) + [(name, d[i].1)];
      PlainDefaultsSnoc(QualifiedDefaults(prefix, d[..i]), (name, d[i].1));
    }
    assert d[..|d|] == d;
  }

  method AppendPlainDefaults(parameters: Signature, d: Dict) returns (r: Signature)
    ensures r == parameters + PlainDefaults(d)
  {
    r := parameters;
    for i := 0 to |d|
      invariant r == parameters + PlainDefaults(d[..i])
    {
      r := r + [Param(d[i].0, PositionalOrKeyword, Some(d[i].1))];
      assert d[..i + 1] == d[..i] + [d[i]];
      PlainDefaultsSnoc(d[..i], d[i]);
    }
    assert d[..|d|] == d;
  }

  method AppendFullNames(parameters: Signature, p: Parser, names: seq<Name>) returns (r: Signature)
    ensures r == parameters + PlainParams(FullNames(p, names))
  {
    r := parameters;
    for i := 0 to |names|
      invariant r == parameters + PlainParams(FullNames(p, names[..i]))
    {
      var name := names[i];
      if name !in Keys(p.funcDefaults) && name !in p.funcParams {
        name := ParamMod(p.prefix, name);
      }
      r := r + [Param(name, PositionalOrKeyword, None)];
      assert FullNames(p, names[..i + 1]) == FullNames(p, names[..i]) + [name];
      PlainParamsSnoc(FullNames(p, names[..i]), name);
    }
    assert names[..|names|] == names;
  }

  method AppendFullDefaults(parameters: Signature, p: Parser, d: Dict) returns (r: Signature)
    ensures r == parameters + PlainDefaults(FullDefaults(p, d))
  {
    r := parameters;
    for i := 0 to |d|
      invariant r == parameters + PlainDefaults(FullDefaults(p, d[..i]))
    {
      var name := d[i].0;
      if name !in Keys(p.funcDefaults) && name !in p.funcParams {
        name := ParamMod(p.prefix, name);
      }
      r := r + [Param(name, PositionalOrKeyword, Some(d[i].1))];
      assert FullDefaults(p, d[..i + 1]) == FullDefaults(p, d[..i]) + [(name, d[i].1)];
      PlainDefaultsSnoc(FullDefaults(p, d[..i]), (name, d[i].1));
    }
    assert d[..|d|] == d;
  }

  /** `SignatureInjectParser.create_static_signature` */
  method CreateInjectSignature(p: Parser) returns (parameters: Signature)
    ensures parameters == InjectSignature(p)
  {
    ghost var a := PlainParams(QualifiedNames(p.prefix, p.config.staticParams));
    ghost var b := PlainParams(p.funcParams);
    ghost var c := Collector(p.funcVars.0, VarPositional);
    ghost var d := PlainDefaults(QualifiedDefaults(p.prefix, p.config.staticDefaults));
    ghost var e := PlainDefaults(p.funcDefaults);
    ghost var f := Collector(p.funcVars.1, VarKeyword);
    parameters := AppendQualified([], p.prefix, p.config.staticParams);
    parameters := AppendPlain(parameters, p.funcParams);
    assert parameters == a + b;
    if p.funcVars.0.Some? {
      parameters := parameters + [Param(p.funcVars.0.value, VarPositional, None)];
    }
    assert parameters == a + b + c;
    parameters := AppendQualifiedDefaults(parameters, p.prefix, p.config.staticDefaults);
    parameters := AppendPlainDefaults(parameters, p.funcDefaults);
    assert parameters == a + b + c + d + e;
    if p.funcVars.1.Some? {
      parameters := parameters + [Param(p.funcVars.1.value, VarKeyword, None)];
    }
    assert parameters == a + b + c + d + e + f;
  }

  /** `FullSignatureParser.create_static_signature` */
  method CreateFullSignature(p: Parser) returns (parameters: Signature)
    ensures parameters == FullStaticSignature(p)
  {
    parameters := AppendFullNames([], p, p.config.staticParams);
    ghost var front := parameters;
    if p.funcVars.0.Some? {
      parameters := parameters + [Param(p.funcVars.0.value, VarPositional, None)];
    }
    assert parameters == front + Collector(p.funcVars.0, VarPositional);
    parameters := AppendFullDefaults(parameters, p, p.config.staticDefaults);
    front := parameters;
    if p.funcVars.1.Some? {
      parameters := parameters + [Param(p.funcVars.1.value, VarKeyword, None)];
    }
    assert parameters == front + Collector(p.funcVars.1, VarKeyword);
  }

  lemma RequiredPlain(names: seq<Name>)
    ensures RequiredNames(PlainParams(names)) == names
  {
    if names != [] {
      assert PlainParams(names) == [Param(names[0], PositionalOrKeyword, None)] + PlainParams(names[1..]);
      RequiredPlain(names[1..]);
    }
  }

  lemma DefaultsOfPlain(names: seq<Name>)
    ensures DefaultPairs(PlainParams(names)) == []
  {
    if names != [] {
      assert PlainParams(names) == [Param(names[0], PositionalOrKeyword, None)] + PlainParams(names[1..]);
      DefaultsOfPlain(names[1..]);
    }
  }

  lemma RequiredOfDefaults(d: Dict)
    ensures RequiredNames(PlainDefaults(d)) == []
  {
    if d != [] {
      assert PlainDefaults(d) == [Param(d[0].0, PositionalOrKeyword, Some(d[0].1))] + PlainDefaults(d[1..]);
      RequiredOfDefaults(d[1..]);
    }
  }

  lemma DefaultsPlain(d: Dict)
    ensures DefaultPairs(PlainDefaults(d)) == d
  {
    if d != [] {
      assert PlainDefaults(d) == [Param(d[0].0, PositionalOrKeyword, Some(d[0].1))] + PlainDefaults(d[1..]);
      DefaultsPlain(d[1..]);
    }
  }

  function CollectorName(name: Option<Name>): seq<Name> {
    match name
    case None => []
    case Some(n) => [n]
  }

  lemma CollectorRead(name: Option<Name>, kind: ParamKind)
    ensures RequiredNames(Collector(name, kind)) == CollectorName(name)
    ensures DefaultPairs(Collector(name, kind)) == []
  {
  }

  /** Reading the synthesized inject signature back with the introspector
      gives the qualified static names, the function's own required names
      and the collectors as its required names. */
  lemma {:induction false} InjectSignatureRequired(p: Parser)
    ensures RequiredNames(InjectSignature(p)) ==
      QualifiedNames(p.prefix, p.config.staticParams) + p.funcParams + CollectorName(p.funcVars.0) + CollectorName(p.funcVars.1)
  {
    var a := PlainParams(QualifiedNames(p.prefix, p.config.staticParams));
    var b := PlainParams(p.funcParams);
    var c := Collector(p.funcVars.0, VarPositional);
    var d := PlainDefaults(QualifiedDefaults(p.prefix, p.config.staticDefaults));
    var e := PlainDefaults(p.funcDefaults);
    var f := Collector(p.funcVars.1, VarKeyword);
    CollectorRead(p.funcVars.0, VarPositional);
    CollectorRead(p.funcVars.1, VarKeyword);
    RequiredOfDefaults(QualifiedDefaults(p.prefix, p.config.staticDefaults));
    RequiredOfDefaults(p.funcDefaults);
    RequiredPlain(QualifiedNames(p.prefix, p.config.staticParams));
    RequiredPlain(p.funcParams);
    RequiredNamesAppend(a, b);
    RequiredNamesAppend(a + b, c);
    RequiredNamesAppend(a + b + c, d);
    RequiredNamesAppend(a + b + c + d, e);
    RequiredNamesAppend(a + b + c + d + e, f);
  }

  /** Reading it back gives the qualified static defaults followed by the
      function's own defaults as its defaults. */
  lemma {:induction false} InjectSignatureDefaults(p: Parser)
    ensures DefaultPairs(InjectSignature(p)) ==
      QualifiedDefaults(p.prefix, p.config.staticDefaults) + p.funcDefaults
  {
    var a := PlainParams(QualifiedNames(p.prefix, p.config.staticParams));
    var b := PlainParams(p.funcParams);
    var c := Collector(p.funcVars.0, VarPositional);
    var d := PlainDefaults(QualifiedDefaults(p.prefix, p.config.staticDefaults));
    var e := PlainDefaults(p.funcDefaults);
    var f := Collector(p.funcVars.1, VarKeyword);
    assert InjectSignature(p) == a + (b + (c + (d + (e + f))));
    CollectorRead(p.funcVars.0, VarPositional);
    CollectorRead(p.funcVars.1, VarKeyword);
    DefaultsPlain(QualifiedDefaults(p.prefix, p.config.staticDefaults));
    DefaultsPlain(p.funcDefaults);
    DefaultsOfPlain(QualifiedNames(p.prefix, p.config.staticParams));
    DefaultsOfPlain(p.funcParams);
    DefaultPairsAppend(e, f);
    assert DefaultPairs(e + f) == p.funcDefaults;
    DefaultPairsAppend(d, e + f);
    DefaultPairsAppend(c, d + (e + f));
    DefaultPairsAppend(b, c + (d + (e + f)));
    DefaultPairsAppend(a, b + (c + (d + (e + f))));
  }

  /** The synthesized inject signature has a `**` entry exactly when the
      function has one: every other entry is positional-or-keyword or the
      `*` collector. This is the collector test the inject parser's
      keyword routing performs on its static signature. */
  lemma InjectSignatureCollector(p: Parser)
    ensures HasVarKeyword(InjectSignature(p)) <==> p.funcVars.1.Some?
  {
    var sig := InjectSignature(p);
    var sp := p.config.staticParams;
    var sd := p.config.staticDefaults;
    var a := PlainParams(QualifiedNames(p.prefix, sp));
    var b := PlainParams(p.funcParams);
    var c := Collector(p.funcVars.0, VarPositional);
    var d := PlainDefaults(QualifiedDefaults(p.prefix, sd));
    var e := PlainDefaults(p.funcDefaults);
    var f := Collector(p.funcVars.1, VarKeyword);
    var front := a + b + c + d + e;
    assert sig == front + f;
    assert forall i :: 0 <= i < |front| ==> front[i].kind != VarKeyword;
    if p.funcVars.1.Some? {
      assert sig[|front|].kind == VarKeyword;
    }
  }

  /** As written, a collector is also a name without a default, so it is
      listed among the function's required names and then once more as a
      collector: the synthesized inject signature names it twice, and
      `inspect.Signature` refuses it. */
  lemma InjectSignatureRepeatsCollector(p: Parser, n: Name)
    requires (p.funcVars.0 == Some(n) || p.funcVars.1 == Some(n)) && n in p.funcParams
    ensures exists i, j :: 0 <= i < j < |InjectSignature(p)| && InjectSignature(p)[i].name == n && InjectSignature(p)[j].name == n
    ensures !ValidSignature(InjectSignature(p))
  {
    var sp := p.config.staticParams;
    var a := PlainParams(QualifiedNames(p.prefix, sp));
    var b := PlainParams(p.funcParams);
    var c := Collector(p.funcVars.0, VarPositional);
    var k :| 0 <= k < |p.funcParams| && p.funcParams[k] == n;
    var sig := InjectSignature(p);
    assert sig[|a| + k] == b[k];
    if p.funcVars.0 == Some(n) {
      assert sig[|a| + |b|] == Param(n, VarPositional, None);
    } else {
      assert sig[|sig| - 1] == Param(n, VarKeyword, None);
    }
  }

  /** The full-signature parser's configuration has to name every
      required name of the function, a collector included, and keeps
      that name unprefixed; the collector entry then repeats it, and
      `inspect.Signature` refuses the list. */
  lemma FullSignatureRepeatsCollector(p: Parser, n: Name)
    requires (p.funcVars.0 == Some(n) || p.funcVars.1 == Some(n)) && n in p.funcParams
    requires n in ImplementedKeys(p.config)
    ensures !ValidSignature(FullStaticSignature(p))
  {
    var sp := p.config.staticParams;
    var sd := p.config.staticDefaults;
    var a := PlainParams(FullNames(p, sp));
    var c := Collector(p.funcVars.0, VarPositional);
    var d := PlainDefaults(FullDefaults(p, sd));
    var sig := FullStaticSignature(p);
    assert FullName(p, n) == n;
    var i: nat;
    if n in sp {
      var k :| 0 <= k < |sp| && sp[k] == n;
      i := k;
      assert sig[i] == a[k];
    } else {
      var k :| 0 <= k < |Keys(sd)| && Keys(sd)[k] == n;
      i := |a| + |c| + k;
      assert sig[i] == d[k];
    }
    assert sig[i].name == n;
    if p.funcVars.0 == Some(n) {
      assert sig[|a|] == Param(n, VarPositional, None);
    } else {
      assert sig[|sig| - 1] == Param(n, VarKeyword, None);
    }
  }

  /** In the full-signature static signature, a name that is not a
      parameter of the function carries the prefix; a name that is one is
      exposed unchanged. */
  lemma FullSignatureNames(p: Parser, i: nat)
    requires i < |p.config.staticParams|
    ensures var n := p.config.staticParams[i];
      FullStaticSignature(p)[i].name == n || (FullStaticSignature(p)[i].name == ParamMod(p.prefix, n) && n !in p.funcParams && n !in Keys(p.funcDefaults))
    ensures HasPrefix(FullStaticSignature(p)[i].name, p.prefix) || FullStaticSignature(p)[i].name in p.funcParams || FullStaticSignature(p)[i].name in Keys(p.funcDefaults)
  {
  }
}
