/** `useMedicineInfo`: look a medicine up in a public drug-label database by
    name (an exact query, then a lenient one) or by product barcode (a catalogue
    lookup that yields a name, then a name lookup), and normalise the first
    label found into a fixed record with placeholder defaults. HTTP responses
    are inputs: each endpoint is a function from the query to its response. */
module MedicineInfo {
  import opened Records

  /** The `openfda` block of a label; every field may be missing. */
  datatype OpenFda = OpenFda(
    brandName: Option<seq<string>>,
    genericName: Option<seq<string>>,
    substanceName: Option<seq<string>>)

  /** One drug label; each text section is an array of paragraphs. */
  datatype Label = Label(
    openfda: Option<OpenFda>,
    purpose: Option<seq<string>>,
    indicationsAndUsage: Option<seq<string>>,
    warnings: Option<seq<string>>,
    warningsAndCautions: Option<seq<string>>,
    dosageAndAdministration: Option<seq<string>>,
    activeIngredient: Option<seq<string>>)

  datatype LabelData = LabelData(results: Option<seq<Label>>)

  /** One product of the barcode catalogue. */
  datatype Product = Product(brandName: Option<string>, genericName: Option<string>)

  datatype ProductData = ProductData(results: Option<seq<Product>>)

  /** What a `throw` carried: an `Error` with its message, or any other value. */
  datatype Thrown = ErrorValue(message: string) | OtherValue

  /** One `fetch` plus `response.json()`: not ok, ok with a body, or an exception. */
  datatype Response<+T> = NotOk | Success(body: T) | Throws(thrown: Thrown)

  /** The normalised label summary. */
  datatype Info = Info(
    name: string,
    purpose: string,
    warnings: string,
    dosageAndAdministration: string,
    activeIngredients: seq<string>)

  /** The value a lookup returns and the `error` field it leaves. */
  datatype Outcome = Outcome(info: Option<Info>, error: Option<string>)

  const NotFound := "Medicine not found in database"
  const FetchFailed := "Failed to fetch medicine information"
  const ProductNotFound := "Product not found. Try entering the medicine name manually."
  const BarcodeFailed := "Failed to lookup barcode. Try entering the medicine name manually."
  const NoPurpose := "Information not available"
  const NoWarnings := "No specific warnings listed"
  const NoDosage := "Consult your healthcare provider"

  /** `a?.[0]`, with a missing array, an empty one and an empty string alike falsy. */
  function First(a: Option<seq<string>>): string
  {
    if a.Some? && |a.value| > 0 then a.value[0] else ""
  }

  /** `parseFDAResponse`: None when there is no result; otherwise the first
      label, every text field falling back along its chain to a placeholder. */
  function Parse(data: LabelData, query: string): (r: Option<Info>)
    ensures r.None? <==> data.results.None? || |data.results.value| == 0
    ensures r.Some? ==> r.value.purpose != "" && r.value.warnings != "" && r.value.dosageAndAdministration != ""
    ensures r.Some? && query != "" ==> r.value.name != ""
  {
    if data.results.None? || |data.results.value| == 0 then None
    else
      var top := data.results.value[0];
      var fda := if top.openfda.Some? then top.openfda.value else OpenFda(None, None, None);
      Some(Info(
        Or(First(fda.brandName), Or(First(fda.genericName), query)),
        Or(First(top.purpose), Or(First(top.indicationsAndUsage), NoPurpose)),
        Or(First(top.warnings), Or(First(top.warningsAndCautions), NoWarnings)),
        Or(First(top.dosageAndAdministration), NoDosage),
        if fda.substanceName.Some? then fda.substanceName.value
        else if top.activeIngredient.Some? then top.activeIngredient.value
        else []))
  }

  /** Where each field of a parsed label comes from: the first present source
      of its chain, and the placeholder only when none is present. Arrays are
      truthy even when empty, so a present `substance_name` wins even if empty. */
  lemma ParseSources(data: LabelData, query: string)
    requires data.results.Some? && |data.results.value| > 0
    ensures var top := data.results.value[0];
            var fda := if top.openfda.Some? then top.openfda.value else OpenFda(None, None, None);
            var info := Parse(data, query).value;
            && (First(fda.brandName) != "" ==> info.name == First(fda.brandName))
            && (First(fda.brandName) == "" && First(fda.genericName) != "" ==> info.name == First(fda.genericName))
            && (First(fda.brandName) == "" && First(fda.genericName) == "" ==> info.name == query)
            && (First(top.purpose) != "" ==> info.purpose == First(top.purpose))
            && (First(top.purpose) == "" && First(top.indicationsAndUsage) != "" ==> info.purpose == First(top.indicationsAndUsage))
            && (First(top.purpose) == "" && First(top.indicationsAndUsage) == "" ==> info.purpose == NoPurpose)
            && (First(top.warnings) != "" ==> info.warnings == First(top.warnings))
            && (First(top.warnings) == "" && First(top.warningsAndCautions) != "" ==> info.warnings == First(top.warningsAndCautions))
            && (First(top.warnings) == "" && First(top.warningsAndCautions) == "" ==> info.warnings == NoWarnings)
            && (First(top.dosageAndAdministration) != "" ==> info.dosageAndAdministration == First(top.dosageAndAdministration))
            && (First(top.dosageAndAdministration) == "" ==> info.dosageAndAdministration == NoDosage)
            && (fda.substanceName.Some? ==> info.activeIngredients == fda.substanceName.value)
            && (fda.substanceName.None? && top.activeIngredient.Some? ==> info.activeIngredients == top.activeIngredient.value)
            && (fda.substanceName.None? && top.activeIngredient.None? ==> info.activeIngredients == [])
  {
  }

  /** The message an exception leaves in `error`. */
  function ThrownMessage(t: Thrown): (m: string)
    ensures t.ErrorValue? ==> m == t.message
    ensures t.OtherValue? ==> m == FetchFailed
  {
    match t
    case ErrorValue(msg) => msg
    case OtherValue => FetchFailed
  }

  /** The result of parsing a body, with the error `parseFDAResponse` sets. */
  function ParseOutcome(data: LabelData, query: string): (o: Outcome)
    ensures o.info.Some? <==> o.error.None?
    ensures o.info.None? ==> o.error == Some(NotFound)
  {
    var info := Parse(data, query);
    if info.None? then Outcome(None, Some(NotFound)) else Outcome(info, None)
  }

  /** `searchMedicine(query)`: the exact query, then on a not-ok response the
      lenient one; a not-ok lenient response is thrown as "not found". */
  function Search(query: string,
                  exact: string -> Response<LabelData>,
                  lenient: string -> Response<LabelData>): Outcome
  {
    match exact(query)
    case Throws(t) => Outcome(None, Some(ThrownMessage(t)))
    case Success(data) => ParseOutcome(data, query)
    case NotOk =>
      match lenient(query)
      case Throws(t) => Outcome(None, Some(ThrownMessage(t)))
      case NotOk => Outcome(None, Some(NotFound))
      case Success(data) => ParseOutcome(data, query)
  }

  /** The name a catalogue product stands for: `brand_name || generic_name || barcode`. */
  function ProductName(p: Product, barcode: string): (name: string)
    ensures name == barcode || (p.brandName.Some? && name == p.brandName.value)
                            || (p.genericName.Some? && name == p.genericName.value)
    ensures Present(p.brandName) ==> name == p.brandName.value
    ensures !Present(p.brandName) && Present(p.genericName) ==> name == p.genericName.value
    ensures !Present(p.brandName) && !Present(p.genericName) ==> name == barcode
  {
    OrElse(p.brandName, OrElse(p.genericName, barcode))
  }

  /** `searchByBarcode(barcode)`. */
  function ByBarcode(barcode: string,
                     catalogue: string -> Response<ProductData>,
                     exact: string -> Response<LabelData>,
                     lenient: string -> Response<LabelData>): Outcome
  {
    match catalogue(barcode)
    case Throws(_) => Outcome(None, Some(BarcodeFailed))
    case NotOk => Search(barcode, exact, lenient)
    case Success(data) =>
      if data.results.Some? && |data.results.value| > 0 then
        Search(ProductName(data.results.value[0], barcode), exact, lenient)
      else Outcome(None, Some(ProductNotFound))
  }

  /** A name lookup either finds a record and clears the error, or finds none
      and leaves a message; it never ends without one of the two. Both failing
      responses mean "not found", and the lenient query is consulted only after
      the exact one was not ok. */
  lemma SearchOutcomes(query: string, exact: string -> Response<LabelData>, lenient: string -> Response<LabelData>,
                       other: string -> Response<LabelData>)
    ensures Search(query, exact, lenient).info.Some? <==> Search(query, exact, lenient).error.None?
    ensures exact(query).NotOk? && lenient(query).NotOk? ==> Search(query, exact, lenient) == Outcome(None, Some(NotFound))
    ensures !exact(query).NotOk? ==> Search(query, exact, lenient) == Search(query, exact, other)
    ensures Search(query, exact, lenient).info.Some? ==>
              exact(query).Success? || (exact(query).NotOk? && lenient(query).Success?)
  {
  }

  /** A barcode lookup falls back to a name lookup of the raw barcode when the
      catalogue answers not ok, uses the product's name when it finds one, and
      otherwise ends with a message instead of a result. */
  lemma BarcodeFallback(barcode: string, catalogue: string -> Response<ProductData>,
                        exact: string -> Response<LabelData>, lenient: string -> Response<LabelData>)
    ensures catalogue(barcode).NotOk? ==> ByBarcode(barcode, catalogue, exact, lenient) == Search(barcode, exact, lenient)
    ensures catalogue(barcode).Throws? ==> ByBarcode(barcode, catalogue, exact, lenient) == Outcome(None, Some(BarcodeFailed))
    ensures catalogue(barcode).Success? && (catalogue(barcode).body.results.None? || catalogue(barcode).body.results.value == []) ==>
              ByBarcode(barcode, catalogue, exact, lenient) == Outcome(None, Some(ProductNotFound))
    ensures ByBarcode(barcode, catalogue, exact, lenient).info.Some? <==> ByBarcode(barcode, catalogue, exact, lenient).error.None?
    ensures catalogue(barcode).NotOk? && exact(barcode).NotOk? && lenient(barcode).NotOk? ==>
              ByBarcode(barcode, catalogue, exact, lenient) == Outcome(None, Some(NotFound))
  {
    SearchOutcomes(barcode, exact, lenient, lenient);
    match catalogue(barcode)
    case Success(data) =>
      if data.results.Some? && |data.results.value| > 0 {
        SearchOutcomes(ProductName(data.results.value[0], barcode), exact, lenient, lenient);
      }
    case _ =>
  }

  /** The hook's two state fields. */
  class Lookup {
    var loading: bool
    var error: Option<string>

    constructor ()
      ensures !loading && error.None?
    {
      loading, error := false, None;
    }

    /** `parseFDAResponse` with its one side effect on `error`. */
    method ParseResponse(data: LabelData, query: string) returns (info: Option<Info>)
      modifies this
      ensures info == Parse(data, query)
      ensures error == if info.None? then Some(NotFound) else old(error)
      ensures loading == old(loading)
    {
      info := Parse(data, query);
      if info.None? {
        error := Some(NotFound);
      }
    }

    /** `searchMedicine(query)`. */
    method SearchMedicine(query: string, exact: string -> Response<LabelData>, lenient: string -> Response<LabelData>)
      returns (info: Option<Info>)
      modifies this
      ensures Outcome(info, error) == Search(query, exact, lenient)
      ensures !loading
    {
      loading := true;
      error := None;
      var response := exact(query);
      match response {
        case Throws(t) =>
          error := Some(ThrownMessage(t));
          info := None;
        case Success(data) =>
          info := ParseResponse(data, query);
        case NotOk =>
          var fallback := lenient(query);
          match fallback {
            case Throws(t) =>
              error := Some(ThrownMessage(t));
              info := None;
            case NotOk =>
              error := Some(NotFound);
              info := None;
            case Success(data) =>
              info := ParseResponse(data, query);
          }
      }
      loading := false;
    }

    /** `searchByBarcode(barcode)`. */
    method SearchByBarcode(barcode: string, catalogue: string -> Response<ProductData>,
                           exact: string -> Response<LabelData>, lenient: string -> Response<LabelData>)
      returns (info: Option<Info>)
      modifies this
      ensures Outcome(info, error) == ByBarcode(barcode, catalogue, exact, lenient)
      ensures !loading
    {
      loading := true;
      error := None;
      var response := catalogue(barcode);
      match response {
        case Throws(_) =>
          error := Some(BarcodeFailed);
          info := None;
        case NotOk =>
          info := SearchMedicine(barcode, exact, lenient);
        case Success(data) =>
          if data.results.Some? && |data.results.value| > 0 {
            var name := ProductName(data.results.value[0], barcode);
            info := SearchMedicine(name, exact, lenient);
          } else {
            error := Some(ProductNotFound);
            info := None;
          }
      }
      loading := false;
    }
  }
}
