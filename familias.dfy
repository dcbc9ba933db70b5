/**
 * The product family table: each family has a name, a code and named
 * subfamilies with codes, and `resolve_codes` completes a product's family and
 * subfamily from whichever of name and code it was given.
 */
module Familias {
  import opened Wrappers
  import opened Text

  datatype Sub = Sub(name: string, code: int)

  datatype Familia = Familia(name: string, codigo: int, subs: seq<Sub>)

  /** `FAMILIAS`, in its declaration order. */
  const FAMILIAS: seq<Familia> := [
    Familia("AUTOMOTRIZ", 1, [Sub("REFRIGERANTES", 1), Sub("CARCARE", 2), Sub("LUBRICANTES", 3)]),
    Familia("LIMPIEZA", 2, [Sub("DETERGENTES", 4), Sub("LIMPIADORES", 5), Sub("AROMATIZANTES", 6), Sub("OTROS", 7)]),
    Familia("MAQUINARIA", 3, [Sub("JARDINERIA", 8), Sub("INDUSTRIAL", 9)]),
    Familia("ELABORACION", 4, [Sub("AUTOMOTRIZ", 10), Sub("LIMPIEZA", 11)]),
    Familia("INSUMOS", 5, [Sub("ENVASES", 12), Sub("CAJAS", 13), Sub("ETIQUETAS", 14), Sub("CONSUMIBLES", 15), Sub("QUIMICOS", 16)]),
    Familia("FIESTA", 6, [Sub("FIESTA", 17)])
  ]

  /** `_norm`: an absent name is empty; otherwise stripped and upper-cased. */
  function Norm(s: Option<string>): (r: string)
    ensures s.None? ==> r == ""
    ensures s.Some? ==> r == Upper(Strip(s.value))
    ensures r == [] <==> s.None? || Strip(s.value) == []
  {
    Upper(Strip(s.GetOr("")))
  }

  /** `name in FAMILIAS`: the family with that key. */
  function FamilyByName(name: string): (r: Option<nat>)
    ensures r.None? <==> forall i :: 0 <= i < |FAMILIAS| ==> FAMILIAS[i].name != name
    ensures r.Some? ==> r.value < |FAMILIAS| && FAMILIAS[r.value].name == name
  {
    FirstFamily(FAMILIAS, name, 0)
  }

  function FirstFamily(fs: seq<Familia>, name: string, from: nat): (r: Option<nat>)
    requires from <= |fs|
    ensures r.None? <==> forall i :: from <= i < |fs| ==> fs[i].name != name
    ensures r.Some? ==> from <= r.value < |fs| && fs[r.value].name == name
    decreases |fs| - from
  {
    if from == |fs| then None
    else if fs[from].name == name then Some(from)
    else FirstFamily(fs, name, from + 1)
  }

  /** The `for ... break` search for the first family with a code. */
  function FamilyByCode(code: int): (r: Option<nat>)
    ensures r.None? <==> forall i :: 0 <= i < |FAMILIAS| ==> FAMILIAS[i].codigo != code
    ensures r.Some? ==> r.value < |FAMILIAS| && FAMILIAS[r.value].codigo == code
  {
    if FAMILIAS[0].codigo == code then Some(0)
    else if FAMILIAS[1].codigo == code then Some(1)
    else if FAMILIAS[2].codigo == code then Some(2)
    else if FAMILIAS[3].codigo == code then Some(3)
    else if FAMILIAS[4].codigo == code then Some(4)
    else if FAMILIAS[5].codigo == code then Some(5)
    else None
  }

  /** `subs.get(name)`. */
  function SubByName(subs: seq<Sub>, name: string): (r: Option<int>)
    ensures r.None? <==> forall i :: 0 <= i < |subs| ==> subs[i].name != name
    ensures r.Some? ==> exists i :: 0 <= i < |subs| && subs[i].name == name && subs[i].code == r.value
  {
    if subs == [] then None
    else if subs[0].name == name then Some(subs[0].code)
    else
      var rest := SubByName(subs[1..], name);
      assert forall i :: 1 <= i < |subs| ==> subs[i] == subs[1..][i - 1];
      rest
  }

  /** The `for ... break` search for the first subfamily with a code: its name. */
  function SubByCode(subs: seq<Sub>, code: int): (r: Option<string>)
    ensures r.None? <==> forall i :: 0 <= i < |subs| ==> subs[i].code != code
    ensures r.Some? ==> exists i :: 0 <= i < |subs| && subs[i].code == code && subs[i].name == r.value
  {
    if subs == [] then None
    else if subs[0].code == code then Some(subs[0].name)
    else
      var rest := SubByCode(subs[1..], code);
      assert forall i :: 1 <= i < |subs| ==> subs[i] == subs[1..][i - 1];
      rest
  }

  /** What `resolve_codes` returns: family code, subfamily code, family name, subfamily name. */
  datatype Resolved = Resolved(codigoG: Option<int>, codigoSg: Option<int>, dg: Option<string>, dsg: Option<string>)

  /** Steps 1 and 2: the family code and name, preferring the name when one is given. */
  function ResolveFamily(dg: Option<string>, codigoG: Option<int>): (Option<int>, Option<string>) {
    var dgN := Norm(dg);
    if dgN != [] then
      var f := FamilyByName(dgN);
      if f.Some? then (Some(FAMILIAS[f.value].codigo), Some(Title(dgN))) else (codigoG, dg)
    else if codigoG.Some? && FamilyByCode(codigoG.value).Some? then
      (codigoG, Some(Title(FAMILIAS[FamilyByCode(codigoG.value).value].name)))
    else (codigoG, dg)
  }

  /** `resolve_codes`. */
  function ResolveCodes(dg: Option<string>, dsg: Option<string>, codigoG: Option<int>, codigoSg: Option<int>): Resolved {
    var (codG, famName) := ResolveFamily(dg, codigoG);
    var dsgN := Norm(dsg);
    var famKey := FamilyByName(Norm(famName));
    if dsgN != [] && famKey.Some? then
      Resolved(codG, SubByName(FAMILIAS[famKey.value].subs, dsgN), famName, Some(Title(dsgN)))
    else if dsgN == [] && codigoSg.Some? && famKey.Some? && SubByCode(FAMILIAS[famKey.value].subs, codigoSg.value).Some? then
      Resolved(codG, codigoSg, famName, Some(Title(SubByCode(FAMILIAS[famKey.value].subs, codigoSg.value).value)))
    else Resolved(codG, codigoSg, famName, dsg)
  }

  // ------------------------------------------------------------ the table

  predicate UpperWord(s: string) {
    forall i :: 0 <= i < |s| ==> 'A' <= s[i] <= 'Z'
  }

  lemma FamilyNamesAreUpperWords()
    ensures forall i :: 0 <= i < |FAMILIAS| ==> UpperWord(FAMILIAS[i].name)
  {
    assert UpperWord("AUTOMOTRIZ");
    assert UpperWord("LIMPIEZA");
    assert UpperWord("MAQUINARIA");
    assert UpperWord("ELABORACION");
    assert UpperWord("INSUMOS");
    assert UpperWord("FIESTA");
  }

  /** Every family code differs from every other, and every subfamily code across the table too. */
  lemma CodesAreDistinct()
    ensures forall i, j :: 0 <= i < j < |FAMILIAS| ==> FAMILIAS[i].codigo != FAMILIAS[j].codigo && FAMILIAS[i].name != FAMILIAS[j].name
    ensures forall i, j, a, b ::
      (0 <= i < |FAMILIAS| && 0 <= j < |FAMILIAS| && 0 <= a < |FAMILIAS[i].subs| && 0 <= b < |FAMILIAS[j].subs| && (i, a) != (j, b))
      ==> FAMILIAS[i].subs[a].code != FAMILIAS[j].subs[b].code
  {
    FamiliesNumbered();
    SubsNumbered();
    forall i, j, a, b |
      0 <= i < |FAMILIAS| && 0 <= j < |FAMILIAS| && 0 <= a < |FAMILIAS[i].subs| && 0 <= b < |FAMILIAS[j].subs| && (i, a) != (j, b)
      ensures FAMILIAS[i].subs[a].code != FAMILIAS[j].subs[b].code
    {
      if i < j {
        OffsetGrows(i + 1, j);
      } else if j < i {
        OffsetGrows(j + 1, i);
      }
    }
  }

  /** The families are numbered 1, 2, ... in order, and their names differ. */
  lemma FamiliesNumbered()
    ensures forall i :: 0 <= i < |FAMILIAS| ==> FAMILIAS[i].codigo == i + 1
    ensures forall i, j :: 0 <= i < j < |FAMILIAS| ==> FAMILIAS[i].name != FAMILIAS[j].name
  {
    var names := ["AUTOMOTRIZ", "LIMPIEZA", "MAQUINARIA", "ELABORACION", "INSUMOS", "FIESTA"];
    assert forall i :: 0 <= i < |FAMILIAS| ==> FAMILIAS[i].name == names[i];
    assert forall i, j :: 0 <= i < j < |names| ==> names[i] != names[j] by {
      assert forall i :: 0 <= i < |names| ==> |names[i]| > 0;
      assert names[0][0] == 'A' && names[1][0] == 'L' && names[2][0] == 'M';
      assert names[3][0] == 'E' && names[4][0] == 'I' && names[5][0] == 'F';
    }
  }

  /** The subfamily codes run 1, 2, ... through the table in order. */
  lemma SubsNumbered()
    ensures forall i, a :: 0 <= i < |FAMILIAS| && 0 <= a < |FAMILIAS[i].subs| ==> FAMILIAS[i].subs[a].code == Offset(i) + a + 1
  {
    forall i, a | 0 <= i < |FAMILIAS| && 0 <= a < |FAMILIAS[i].subs|
      ensures FAMILIAS[i].subs[a].code == Offset(i) + a + 1
    {
    }
  }

  /** Every subfamily of an earlier family comes before the first of a later one. */
  lemma {:induction false} OffsetGrows(i: nat, j: nat)
    requires 0 < i <= j <= |FAMILIAS|
    ensures Offset(i - 1) + |FAMILIAS[i - 1].subs| <= Offset(j)
    decreases j - i
  {
    if i < j {
      OffsetGrows(i, j - 1);
    }
  }

  /** How many subfamilies come before family `i`. */
  function Offset(i: nat): nat
    requires i <= |FAMILIAS|
  {
    if i == 0 then 0 else Offset(i - 1) + |FAMILIAS[i - 1].subs|
  }

  /** Title-casing an upper-case word and upper-casing it again gives the word back. */
  lemma {:induction false} UpperTitle(s: string, afterCased: bool)
    requires UpperWord(s)
    ensures Upper(TitleFrom(s, afterCased)) == s
    decreases |s|
  {
    if s != [] {
      assert UpperWord(s[1..]);
      UpperTitle(s[1..], IsCased(s[0]));
      var t := TitleFrom(s, afterCased);
      assert t == [if afterCased then LowerChar(s[0]) else UpperChar(s[0])] + TitleFrom(s[1..], IsCased(s[0]));
      assert Upper(t)[0] == s[0];
      assert forall k :: 1 <= k < |t| ==> Upper(t)[k] == Upper(TitleFrom(s[1..], IsCased(s[0])))[k - 1];
    }
  }

  /** The name `resolve_codes` returns for a table family normalises back to the family's key. */
  lemma TitledNameNormalises(s: string)
    requires UpperWord(s)
    ensures Norm(Some(Title(s))) == s
  {
    UpperTitle(s, false);
    var t := Title(s);
    assert |t| == |s| by { UpperTitle(s, false); }
    if |t| > 0 {
      assert !IsSpace(t[0]) && !IsSpace(t[|t| - 1]) by {
        assert UpperChar(t[0]) == s[0] && UpperChar(t[|t| - 1]) == s[|s| - 1];
      }
    }
    assert Strip(t) == t;
  }

  /** The family `resolve_codes` settles on: by name when a name is given, otherwise by code. */
  function ResolvedFamily(dg: Option<string>, codigoG: Option<int>): Option<nat> {
    if Norm(dg) != [] then FamilyByName(Norm(dg))
    else if codigoG.Some? then FamilyByCode(codigoG.value)
    else None
  }

  /** The family name `resolve_codes` carries into its subfamily steps looks up the settled family. */
  lemma ResolvedKey(dg: Option<string>, codigoG: Option<int>)
    ensures FamilyByName(Norm(ResolveFamily(dg, codigoG).1)) == ResolvedFamily(dg, codigoG)
  {
    var dgN := Norm(dg);
    if dgN != [] {
      var f := FamilyByName(dgN);
      if f.Some? {
        FamilyNamesAreUpperWords();
        TitledNameNormalises(dgN);
      }
    } else if codigoG.Some? && FamilyByCode(codigoG.value).Some? {
      var f := FamilyByCode(codigoG.value).value;
      FamilyByCodeNamed(f);
    } else {
      FamilyNamesNotEmpty();
    }
  }

  /** The title-cased name of a table family normalises back to a name that finds that family. */
  lemma FamilyByCodeNamed(f: nat)
    requires f < |FAMILIAS|
    ensures FamilyByName(Norm(Some(Title(FAMILIAS[f].name)))) == Some(f)
  {
    FamilyNamesAreUpperWords();
    FamiliesNumbered();
    TitledNameNormalises(FAMILIAS[f].name);
    assert forall i :: 0 <= i < |FAMILIAS| && i != f ==> FAMILIAS[i].name != FAMILIAS[f].name;
  }

  /** No family is named by the empty text. */
  lemma FamilyNamesNotEmpty()
    ensures FamilyByName("").None?
  {
    assert forall i :: 0 <= i < |FAMILIAS| ==> |FAMILIAS[i].name| > 0;
  }

  /**
   * `resolve_codes`, family part: a family name in the table gives its code and
   * title-cased name, an unknown one leaves code and name as given, and a code
   * alone names its family.
   */
  lemma ResolveFamilySpec(dg: Option<string>, dsg: Option<string>, codigoG: Option<int>, codigoSg: Option<int>)
    ensures var r := ResolveCodes(dg, dsg, codigoG, codigoSg);
      Norm(dg) != [] && FamilyByName(Norm(dg)).Some? ==>
        r.codigoG == Some(FAMILIAS[FamilyByName(Norm(dg)).value].codigo) && r.dg == Some(Title(Norm(dg)))
    ensures var r := ResolveCodes(dg, dsg, codigoG, codigoSg);
      Norm(dg) != [] && FamilyByName(Norm(dg)).None? ==> r.codigoG == codigoG && r.dg == dg
    ensures var r := ResolveCodes(dg, dsg, codigoG, codigoSg);
      Norm(dg) == [] && codigoG.Some? && FamilyByCode(codigoG.value).Some? ==>
        r.codigoG == codigoG && r.dg == Some(Title(FAMILIAS[FamilyByCode(codigoG.value).value].name))
  {
    var r := ResolveCodes(dg, dsg, codigoG, codigoSg);
    assert (r.codigoG, r.dg) == ResolveFamily(dg, codigoG);
  }

  /**
   * `resolve_codes`, subfamily part: under the settled family a subfamily name
   * gives that family's sub code, or None when the family does not list it.
   */
  lemma ResolveSubByNameSpec(dg: Option<string>, dsg: Option<string>, codigoG: Option<int>, codigoSg: Option<int>)
    requires ResolvedFamily(dg, codigoG).Some? && Norm(dsg) != []
    ensures ResolveCodes(dg, dsg, codigoG, codigoSg).codigoSg == SubByName(FAMILIAS[ResolvedFamily(dg, codigoG).value].subs, Norm(dsg))
    ensures ResolveCodes(dg, dsg, codigoG, codigoSg).dsg == Some(Title(Norm(dsg)))
  {
    ResolvedKey(dg, codigoG);
  }

  /** With no subfamily name, a sub code the settled family lists names its subfamily, and the code is kept. */
  lemma ResolveSubByCodeSpec(dg: Option<string>, dsg: Option<string>, codigoG: Option<int>, codigoSg: Option<int>)
    requires ResolvedFamily(dg, codigoG).Some? && Norm(dsg) == [] && codigoSg.Some?
    requires SubByCode(FAMILIAS[ResolvedFamily(dg, codigoG).value].subs, codigoSg.value).Some?
    ensures ResolveCodes(dg, dsg, codigoG, codigoSg).codigoSg == codigoSg
    ensures ResolveCodes(dg, dsg, codigoG, codigoSg).dsg
      == Some(Title(SubByCode(FAMILIAS[ResolvedFamily(dg, codigoG).value].subs, codigoSg.value).value))
  {
    ResolvedKey(dg, codigoG);
  }

  /** With no family settled, the subfamily code and name come back as given. */
  lemma NoFamilyKeepsSub(dg: Option<string>, dsg: Option<string>, codigoG: Option<int>, codigoSg: Option<int>)
    requires ResolvedFamily(dg, codigoG).None?
    ensures ResolveCodes(dg, dsg, codigoG, codigoSg).codigoSg == codigoSg
    ensures ResolveCodes(dg, dsg, codigoG, codigoSg).dsg == dsg
  {
    ResolvedKey(dg, codigoG);
  }
}
