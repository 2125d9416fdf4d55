/**
 * The chatbot's price list: the four website packages (`PACKAGE_INFO`) and the
 * scheduling add-on (`EXTRA_INFO`), together with the arithmetic the details
 * panel performs on them.
 */
module Catalog {
  import opened Wrappers
  import Js

  /** One entry of `PACKAGE_INFO`; prices are whole reais. */
  datatype Package = Package(
    title: string,
    description: string,
    bullets: seq<string>,
    tech: string,
    price: nat,
    maint: nat,
    note: string)

  /** `EXTRA_INFO`, the scheduling add-on. */
  datatype AddOn = AddOn(title: string, price: nat, maint: nat, description: string)

  /** The keys of `PACKAGE_INFO`, in declaration order. */
  const PackageNames: seq<string> :=
    ["Pacote Básico", "Pacote Profissional", "Pacote Completo", "Pacote React"]

  const BasicPackage := Package(
    "🔹 Pacote Básico",
    "Ideal para quem precisa marcar presença online de forma simples e profissional.",
    ["Site de 1 página", "Layout moderno", "Mobile & Desktop Friendly", "Carregamento rápido", "Visual profissional"],
    "HTML e CSS", 500, 100,
    "Ideal para negócios locais, autônomos e quem está começando.")

  const ProfessionalPackage := Package(
    "🔹 Pacote Profissional",
    "Perfeito para quem quer um site que realmente gere resultados.",
    ["Design estratégico focado em conversão", "Totalmente responsivo", "Funcionalidades em JavaScript", "Experiência moderna"],
    "HTML, CSS e JavaScript", 900, 200,
    "Ideal para quem quer captar clientes e passar mais autoridade.")

  const CompletePackage := Package(
    "🔹 Pacote Completo",
    "Para negócios que querem um site profissional e escalável.",
    ["Até 5 páginas", "Animações avançadas JS", "Estrutura organizada", "Design elaborado", "Experiência rica"],
    "HTML, CSS e JavaScript", 1500, 300,
    "Ideal para empresas que querem crescer no digital.")

  const ReactPackage := Package(
    "🔹 Pacote Avançado – React",
    "Solução premium para negócios que querem escalar e automatizar.",
    ["Site desenvolvido em React", "Estrutura escalável", "Layout de alto nível", "Alta performance", "Chat de agendamento incluso"],
    "React Engine", 3500, 500,
    "Ideal para empresas que pensam grande e querem tecnologia de ponta.")

  const Extra := AddOn(
    "➕ Extra – Sistema de Agendamento", 500, 200,
    "Chat inteligente com coleta de dados e agendamento automático via WhatsApp.")

  /** The values of `PACKAGE_INFO`, in the order of `PackageNames`. */
  const Packages: seq<Package> := [BasicPackage, ProfessionalPackage, CompletePackage, ReactPackage]

  predicate IsPackageName(name: string) {
    name in PackageNames
  }

  /**
   * The properties every plain object inherits from `Object.prototype`.
   * `PACKAGE_INFO[name]` is truthy for these names too, although none of
   * them is a package.
   */
  const InheritedNames: seq<string> := [
    "constructor", "__proto__", "__defineGetter__", "__defineSetter__", "__lookupGetter__",
    "__lookupSetter__", "hasOwnProperty", "isPrototypeOf", "propertyIsEnumerable",
    "toLocaleString", "toString", "valueOf"]

  predicate IsInheritedName(name: string) {
    name in InheritedNames
  }

  /** No package key shadows an inherited property. */
  lemma OwnAndInheritedDisjoint(name: string)
    ensures !(IsPackageName(name) && IsInheritedName(name))
  {
  }

  /**
   * `PACKAGE_INFO[name]` read as one of its own keys: each of the four keys
   * gives its package and every other name gives nothing. Inherited names
   * are told apart by `IsInheritedName`.
   */
  function Lookup(name: string): (r: Option<Package>)
    ensures r.Some? <==> IsPackageName(name)
    ensures forall i :: 0 <= i < |PackageNames| && name == PackageNames[i] ==> r == Some(Packages[i])
  {
    if name == "Pacote Básico" then Some(BasicPackage)
    else if name == "Pacote Profissional" then Some(ProfessionalPackage)
    else if name == "Pacote Completo" then Some(CompletePackage)
    else if name == "Pacote React" then Some(ReactPackage)
    else None
  }

  /** The investment shown and sent on hand-off: the package price, plus the add-on's when it is on. */
  function TotalPrice(pkg: Package, addExtra: bool): nat {
    if addExtra then pkg.price + Extra.price else pkg.price
  }

  /** The monthly maintenance shown: the package's, plus the add-on's when it is on. */
  function TotalMaint(pkg: Package, addExtra: bool): nat {
    if addExtra then pkg.maint + Extra.maint else pkg.maint
  }

  /** The add-on toggle is drawn only for services whose name does not mention React. */
  predicate ToggleOffered(service: string) {
    !Js.Includes(service, "React")
  }

  /** The add-on adds exactly 500 to the price and 200 to the maintenance, and nothing otherwise. */
  lemma TotalsWithAndWithoutExtra(pkg: Package)
    ensures TotalPrice(pkg, false) == pkg.price && TotalMaint(pkg, false) == pkg.maint
    ensures TotalPrice(pkg, true) == pkg.price + 500 && TotalMaint(pkg, true) == pkg.maint + 200
    ensures TotalPrice(pkg, true) > TotalPrice(pkg, false)
  {
  }

  /** The complete price table of the catalog, with and without the add-on. */
  lemma PriceTable()
    ensures TotalPrice(Lookup("Pacote Básico").value, false) == 500
    ensures TotalPrice(Lookup("Pacote Básico").value, true) == 1000
    ensures TotalPrice(Lookup("Pacote Profissional").value, false) == 900
    ensures TotalPrice(Lookup("Pacote Profissional").value, true) == 1400
    ensures TotalPrice(Lookup("Pacote Completo").value, false) == 1500
    ensures TotalPrice(Lookup("Pacote Completo").value, true) == 2000
    ensures TotalPrice(Lookup("Pacote React").value, false) == 3500
    ensures TotalPrice(Lookup("Pacote React").value, true) == 4000
    ensures forall name :: IsPackageName(name) ==> TotalMaint(Lookup(name).value, true) == Lookup(name).value.maint + 200
  {
  }

  /** The toggle is offered for the three HTML packages and withheld for the React one. */
  lemma ToggleOfferedExactlyBelowReact(i: int)
    requires 0 <= i < |PackageNames|
    ensures ToggleOffered(PackageNames[i]) <==> i != 3
  {
    if i == 3 {
      assert Js.OccursAt("Pacote React", "React", 7);
    } else {
      Js.MissingFirstCharExcludes(PackageNames[i], "React");
    }
  }

  /** For a catalog key, the toggle is offered exactly when the key is not the React package. */
  lemma ToggleOfferedForKey(name: string)
    requires IsPackageName(name)
    ensures ToggleOffered(name) <==> name != "Pacote React"
  {
    if name == PackageNames[3] {
      ToggleOfferedExactlyBelowReact(3);
    } else {
      var i :| 0 <= i < 3 && PackageNames[i] == name;
      ToggleOfferedExactlyBelowReact(i);
    }
  }

  /** The four keys are distinct, so `Object.keys(PACKAGE_INFO)` offers four different choices. */
  lemma PackageNamesDistinct()
    ensures |PackageNames| == 4
    ensures forall i, j :: 0 <= i < j < |PackageNames| ==> PackageNames[i] != PackageNames[j]
  {
  }
}
