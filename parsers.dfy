/** The page parser: business records from the page's JSON-LD (an ItemList of
    listings first, then single business blocks), and otherwise one record
    built from the telephone numbers and e-mail addresses visible on the page. */
module Parsers {
  import opened Json
  import opened Text
  import opened Ordering
  import opened Utils

  /** The library calls the parser relies on, taken as given total functions. */
  datatype Libraries = Libraries(
    // html.unescape followed by NFKC normalisation
    normalise: string -> string,
    // float(s) of a string: the number, or None where float() raises
    parseFloat: string -> Option<real>,
    // str(v) of a value that is not a string
    show: Json -> string,
    // the "json-ld" list extruct extracts from a page and its url
    jsonLd: (string, string) -> seq<Json>,
    // soup.get_text("\n", strip=True)
    pageText: string -> string,
    // soup.title.string, when the page has a title holding a string
    title: string -> Option<string>,
    // the matches of the phone and e-mail regular expressions, in page order
    phoneMatches: string -> seq<string>,
    emailMatches: string -> seq<string>)

  const AllowedTypes: set<string> :=
    {"Restaurant", "FoodEstablishment", "LocalBusiness", "Hotel", "LodgingBusiness"}

  // ---------------------------------------------------------------------
  // Text cleaning

  /** The visual escapes `'` and `&` written out as `'` and `&`. */
  function Unescaped(s: string): string {
    Replace(Replace(s, "\\u0027", "'"), "\\u0026", "&")
  }

  /** The string before whitespace is collapsed: escapes, entities, NFKC. */
  function Normalised(s: string, lib: Libraries): string {
    lib.normalise(Unescaped(s))
  }

  /** `_clean_text` of a string: None for the empty string and for a string
      that normalises to whitespace only, else the collapsed normalised text. */
  function CleanStr(s: string, lib: Libraries): (r: Option<string>)
    ensures s == "" ==> r == None
    ensures r.Some? ==> r.value != ""
  {
    if s == "" then None
    else
      var t := Collapse(Normalised(s, lib));
      if t == "" then None else Some(t)
  }

  /** A cleaned string is collapsed and keeps every non-whitespace character
      of the normalised text; the text cleans to None only when it is empty
      or normalises to whitespace. */
  lemma CleanStrShape(s: string, lib: Libraries)
    ensures CleanStr(s, lib).Some? ==>
      Collapsed(CleanStr(s, lib).value) && Ink(CleanStr(s, lib).value) == Ink(Normalised(s, lib))
    ensures CleanStr(s, lib).None? ==> s == "" || Ink(Normalised(s, lib)) == ""
  {
    CollapseShape(Normalised(s, lib));
    CollapsedEmpty(Collapse(Normalised(s, lib)));
  }

  /** The AttributeError `_clean_text` raises on a truthy value that is not a string. */
  function ReplaceError(v: Json): Exc {
    Exc("'" + TypeName(v) + "' object has no attribute 'replace'")
  }

  /** `_clean_text` may only raise on a truthy value that is not a string. */
  predicate Raises(v: Json) {
    Truthy(v) && !v.JStr?
  }

  /** `_clean_text` of any decoded value. */
  function CleanText(v: Json, lib: Libraries): (r: Result<Option<string>>)
    ensures r.Err? <==> Raises(v)
    ensures r.Err? ==> r.error == ReplaceError(v)
    ensures r.Ok? && r.value.Some? ==> v.JStr? && r.value == CleanStr(v.s, lib)
  {
    if !Truthy(v) then Ok(None)
    else if v.JStr? then Ok(CleanStr(v.s, lib))
    else Err(ReplaceError(v))
  }

  /** `str(v)`. */
  function PyStr(v: Json, lib: Libraries): string {
    if v.JStr? then v.s else lib.show(v)
  }

  // ---------------------------------------------------------------------
  // schema.org types

  function AnyAllowed(xs: seq<Json>, allowed: set<string>): (b: bool)
    ensures b <==> exists k | 0 <= k < |xs| :: xs[k].JStr? && xs[k].s in allowed
  {
    if xs == [] then false
    else if xs[0].JStr? && xs[0].s in allowed then true
    else
      var b := AnyAllowed(xs[1..], allowed);
      assert forall k | 1 <= k < |xs| :: xs[k] == xs[1..][k - 1];
      b
  }

  /** `_type_matches`: a string type that is allowed, or a list holding one. */
  function TypeMatches(t: Json, allowed: set<string>): (b: bool)
    ensures t.JStr? ==> (b <==> t.s in allowed)
    ensures t.JList? ==>
      (b <==> exists k | 0 <= k < |t.elems| :: t.elems[k].JStr? && t.elems[k].s in allowed)
    ensures !t.JStr? && !t.JList? ==> !b
  {
    match t
    case JStr(s) => s in allowed
    case JList(xs) => AnyAllowed(xs, allowed)
    case _ => false
  }

  // ---------------------------------------------------------------------
  // Addresses

  datatype Address = Address(
    street: Option<string>,
    locality: Option<string>,
    region: Option<string>,
    postalCode: Option<string>,
    country: Option<string>)

  const NoAddress := Address(None, None, None, None, None)

  /** A field `_clean_text` produced: absent, or a non-empty string. */
  predicate NonBlank(o: Option<string>) {
    o.Some? ==> o.value != ""
  }

  /** The street line: `streetAddress`, else `addressLine1`, else `street`. */
  function StreetOf(d: map<string, Json>): Json {
    Or(Or(Get(d, "streetAddress"), Get(d, "addressLine1")), Get(d, "street"))
  }

  /** The values `_address_fields` cleans, in the order it cleans them. */
  function AddressInputs(addr: Json): seq<Json> {
    if addr.JObj? then
      var d := addr.fields;
      [StreetOf(d), Get(d, "addressLocality"), Get(d, "addressRegion"),
       Get(d, "postalCode"), Get(d, "addressCountry")]
    else []
  }

  /** `_address_fields` as a value: each field cleaned in turn, the first
      failure raising; anything but a mapping gives the empty address. */
  function AddressOf(addr: Json, lib: Libraries): (r: Result<Address>)
    ensures !addr.JObj? ==> r == Ok(NoAddress)
    ensures r.Ok? ==>
      NonBlank(r.value.street) && NonBlank(r.value.locality) && NonBlank(r.value.region)
      && NonBlank(r.value.postalCode) && NonBlank(r.value.country)
  {
    if !addr.JObj? then Ok(NoAddress)
    else
      var d := addr.fields;
      var street :- CleanText(StreetOf(d), lib);
      var locality :- CleanText(Get(d, "addressLocality"), lib);
      var region :- CleanText(Get(d, "addressRegion"), lib);
      var postalCode :- CleanText(Get(d, "postalCode"), lib);
      var country :- CleanText(Get(d, "addressCountry"), lib);
      Ok(Address(street, locality, region, postalCode, country))
  }

  /** `_address_fields`: start from the empty address and fill in each field
      when the value is a mapping. */
  method AddressFields(addr: Json, lib: Libraries) returns (r: Result<Address>)
    ensures r == AddressOf(addr, lib)
  {
    var out := NoAddress;
    if addr.JObj? {
      var d := addr.fields;
      var street :- CleanText(StreetOf(d), lib);
      out := out.(street := street);
      var locality :- CleanText(Get(d, "addressLocality"), lib);
      out := out.(locality := locality);
      var region :- CleanText(Get(d, "addressRegion"), lib);
      out := out.(region := region);
      var postalCode :- CleanText(Get(d, "postalCode"), lib);
      out := out.(postalCode := postalCode);
      var country :- CleanText(Get(d, "addressCountry"), lib);
      out := out.(country := country);
    }
    return Ok(out);
  }

  /** The first value `_clean_text` raises on. */
  function FirstRaising(vs: seq<Json>): (r: Option<Json>)
    ensures r.None? <==> forall k | 0 <= k < |vs| :: !Raises(vs[k])
    ensures r.Some? ==>
      exists k | 0 <= k < |vs| :: vs[k] == r.value && Raises(vs[k]) && (forall j | 0 <= j < k :: !Raises(vs[j]))
  {
    if vs == [] then None
    else if Raises(vs[0]) then Some(vs[0])
    else
      var r := FirstRaising(vs[1..]);
      assert forall k | 1 <= k < |vs| :: vs[k] == vs[1..][k - 1];
      if r.Some? then
        var k :| 0 <= k < |vs[1..]| && vs[1..][k] == r.value && Raises(vs[1..][k])
          && (forall j | 0 <= j < k :: !Raises(vs[1..][j]));
        assert vs[k + 1] == r.value && forall j | 0 <= j < k + 1 :: !Raises(vs[j]);
        r
      else r
  }

  lemma FirstRaisingCons(v: Json, vs: seq<Json>)
    ensures FirstRaising([v] + vs) == if Raises(v) then Some(v) else FirstRaising(vs)
  {
    assert ([v] + vs)[1..] == vs;
  }

  lemma {:induction false} FirstRaisingAppend(a: seq<Json>, b: seq<Json>)
    ensures FirstRaising(a + b) == if FirstRaising(a).Some? then FirstRaising(a) else FirstRaising(b)
    decreases |a|
  {
    if a != [] {
      assert a + b == [a[0]] + (a[1..] + b);
      assert a == [a[0]] + a[1..];
      FirstRaisingCons(a[0], a[1..] + b);
      FirstRaisingCons(a[0], a[1..]);
      FirstRaisingAppend(a[1..], b);
    } else {
      assert a + b == b;
    }
  }

  /** The address raises exactly on the first of its values that is a truthy
      non-string, with that value's error. */
  lemma AddressRaises(addr: Json, lib: Libraries)
    ensures AddressOf(addr, lib).Err? <==> FirstRaising(AddressInputs(addr)).Some?
    ensures AddressOf(addr, lib).Err? ==>
      AddressOf(addr, lib).error == ReplaceError(FirstRaising(AddressInputs(addr)).value)
  {
    if addr.JObj? {
      var d := addr.fields;
      var a, b, c, p, q := StreetOf(d), Get(d, "addressLocality"), Get(d, "addressRegion"),
                           Get(d, "postalCode"), Get(d, "addressCountry");
      assert AddressInputs(addr) == [a] + [b, c, p, q];
      assert [b, c, p, q] == [b] + [c, p, q] && [c, p, q] == [c] + [p, q] && [p, q] == [p] + [q];
      assert [q] == [q] + [];
      FirstRaisingCons(q, []);
      FirstRaisingCons(p, [q]);
      FirstRaisingCons(c, [p, q]);
      FirstRaisingCons(b, [c, p, q]);
      FirstRaisingCons(a, [b, c, p, q]);
    } else {
      assert AddressInputs(addr) == [];
    }
  }

  // ---------------------------------------------------------------------
  // Rating

  /** `2 ** 1024 - 2 ** 970`: the least integer that `float()` rounds past the
      largest double, so that `float(i)` raises OverflowError exactly when
      `abs(i)` is at least this bound. */
  const FloatIntBound: int := 179769313486231580793728971405303415079934132710037826936173778980444968292764750946649017977587207096330286416692887910946555547851940402630657488671505820681908902000708383676273854845817711531764475730270069855571366959622842914819860834936475292719074168444365510704342711559699508093042880177904174497792

  /** `float(v)`, None where it raises. */
  function PyFloat(v: Json, lib: Libraries): Option<real> {
    match v
    case JNull => None
    case JBool(b) => Some(if b then 1.0 else 0.0)
    case JInt(i) => if -FloatIntBound < i < FloatIntBound then Some(i as real) else None
    case JFloat(x) => Some(x)
    case JStr(s) => lib.parseFloat(s)
    case JList(_) => None
    case JObj(_) => None
  }

  /** `_rating`: the rating value of an `aggregateRating` mapping, or None. */
  function Rating(block: map<string, Json>, lib: Libraries): (r: Option<real>)
    ensures !Get(block, "aggregateRating").JObj? ==> r == None
    ensures Get(block, "aggregateRating").JObj? ==>
      var v := Get(Get(block, "aggregateRating").fields, "ratingValue");
      (v.JNull? || v.JList? || v.JObj? ==> r == None)
      && (v.JInt? && -FloatIntBound < v.i < FloatIntBound ==> r == Some(v.i as real))
      && (v.JInt? && !(-FloatIntBound < v.i < FloatIntBound) ==> r == None)
      && (v.JFloat? ==> r == Some(v.x))
  {
    var agg := Get(block, "aggregateRating");
    if agg.JObj? then PyFloat(Get(agg.fields, "ratingValue"), lib) else None
  }

  // ---------------------------------------------------------------------
  // Records

  /** One scraped business record; `dataQuality` is the 0..100 completeness score. */
  datatype Entity = Entity(
    entityType: Option<string>,
    name: Option<string>,
    address: Option<string>,
    locality: Option<string>,
    region: Option<string>,
    postalCode: Option<string>,
    country: Option<string>,
    phones: seq<string>,
    emails: seq<string>,
    website: Option<string>,
    socials: map<string, string>,
    geo: Option<map<string, real>>,
    categories: seq<string>,
    rating: Option<real>,
    dataQuality: nat)

  /** Python truthiness of an optional string. */
  predicate Filled(o: Option<string>) {
    o.Some? && o.value != ""
  }

  function Points(present: bool, points: nat): nat {
    if present then points else 0
  }

  function Min(a: nat, b: nat): nat {
    if a <= b then a else b
  }

  /** The completeness score of a structured record, as the parser totals it. */
  function Quality(name: Option<string>, phones: seq<string>, website: Option<string>,
                   address: Option<string>, rating: Option<real>): nat {
    Min(100, Points(Filled(name), 30) + Points(phones != [], 25) + Points(Filled(website), 10)
             + Points(Filled(address), 10) + Points(rating.Some?, 25))
  }

  /** The score a structured record should carry: 30 for a name, 25 for a
      phone, 10 for a website, 10 for a street address, 25 for a rating. */
  function StructuredQuality(e: Entity): (q: nat)
    ensures q <= 100
  {
    Points(e.name.Some?, 30) + Points(e.phones != [], 25) + Points(e.website.Some?, 10)
    + Points(e.address.Some?, 10) + Points(e.rating.Some?, 25)
  }

  /** The telephone list of a record: the cleaned `str(telephone)`, if any. */
  function TelephonePhones(tel: Json, lib: Libraries): (phones: seq<string>)
    ensures |phones| <= 1
    ensures !Truthy(tel) ==> phones == []
    ensures phones != [] ==> Some(phones[0]) == CleanStr(PyStr(tel, lib), lib)
  {
    if Truthy(tel) then
      match CleanStr(PyStr(tel, lib), lib)
      case Some(t) => [t]
      case None => []
    else []
  }

  /** The record type: "Restaurant" when the type names it, else the cleaned
      type string, else None. */
  function EntityTypeOf(t: Json, lib: Libraries): (r: Option<string>)
    ensures TypeMatches(t, {"Restaurant"}) ==> r == Some("Restaurant")
    ensures !TypeMatches(t, {"Restaurant"}) && !t.JStr? ==> r == None
    ensures !TypeMatches(t, {"Restaurant"}) && t.JStr? ==> r == CleanStr(t.s, lib)
  {
    if TypeMatches(t, {"Restaurant"}) then Some("Restaurant")
    else if t.JStr? then CleanStr(t.s, lib)
    else None
  }

  /** The values `_entity_from_jsonld_item` cleans, in the order it cleans them. */
  function ItemInputs(item: map<string, Json>, url: string): seq<Json> {
    [Get(item, "name")] + AddressInputs(Get(item, "address")) + [Or(Get(item, "url"), JStr(url))]
  }

  /** `_entity_from_jsonld_item` as a value. */
  function ItemEntity(item: map<string, Json>, url: string, lib: Libraries): Result<Entity> {
    var name :- CleanText(Get(item, "name"), lib);
    var addr :- AddressOf(Get(item, "address"), lib);
    var website :- CleanText(Or(Get(item, "url"), JStr(url)), lib);
    Ok(Record(item, lib, name, addr, website))
  }

  /** The record of a block whose text fields are cleaned. */
  function Record(item: map<string, Json>, lib: Libraries, name: Option<string>, addr: Address,
                  website: Option<string>): Entity {
    var phones := TelephonePhones(Get(item, "telephone"), lib);
    var rating := Rating(item, lib);
    Entity(EntityTypeOf(Get(item, "@type"), lib), name, addr.street, addr.locality, addr.region,
           addr.postalCode, addr.country, phones, [], website, map[], None, [], rating,
           Quality(name, phones, website, addr.street, rating))
  }

  /** Building a record raises exactly on the first text field holding a
      truthy non-string, with that field's error. */
  lemma ItemEntityRaises(item: map<string, Json>, url: string, lib: Libraries)
    ensures ItemEntity(item, url, lib).Err? <==> FirstRaising(ItemInputs(item, url)).Some?
    ensures ItemEntity(item, url, lib).Err? ==>
      ItemEntity(item, url, lib).error == ReplaceError(FirstRaising(ItemInputs(item, url)).value)
  {
    var nameV := Get(item, "name");
    var addr := AddressInputs(Get(item, "address"));
    var urlV := Or(Get(item, "url"), JStr(url));
    AddressRaises(Get(item, "address"), lib);
    assert ItemInputs(item, url) == [nameV] + (addr + [urlV]);
    FirstRaisingCons(nameV, addr + [urlV]);
    FirstRaisingAppend(addr, [urlV]);
    FirstRaisingCons(urlV, []);
    assert [urlV] + [] == [urlV];
  }

  /** What a record built from one JSON-LD block always looks like. */
  predicate Structured(e: Entity) {
    e.emails == [] && e.socials == map[] && e.geo == None && e.categories == []
    && |e.phones| <= 1 && e.dataQuality == StructuredQuality(e)
  }

  /** A built record is structured, so its score never reaches the cap, and
      its fields follow the mapping rules. */
  lemma ItemEntityShape(item: map<string, Json>, url: string, lib: Libraries)
    ensures var r := ItemEntity(item, url, lib);
      r.Ok? ==>
        Structured(r.value)
        && NonBlank(r.value.name) && NonBlank(r.value.address) && NonBlank(r.value.website)
        && NonBlank(r.value.locality) && NonBlank(r.value.region) && NonBlank(r.value.postalCode)
        && NonBlank(r.value.country) && NonBlank(r.value.entityType)
        && (r.value.name.Some? ==> Get(item, "name").JStr?)
        && (!Truthy(Get(item, "url")) ==> r.value.website == CleanStr(url, lib))
        && (TypeMatches(Get(item, "@type"), {"Restaurant"}) ==> r.value.entityType == Some("Restaurant"))
        && (!Get(item, "address").JObj? ==>
              r.value.address == None && r.value.locality == None && r.value.region == None
              && r.value.postalCode == None && r.value.country == None)
        && ((Truthy(Get(item, "telephone")) && CleanStr(PyStr(Get(item, "telephone"), lib), lib).Some?)
            ==> r.value.phones == [CleanStr(PyStr(Get(item, "telephone"), lib), lib).value])
  {
    var r := ItemEntity(item, url, lib);
    if r.Ok? {
      var e := r.value;
      assert Filled(e.name) == e.name.Some?;
      assert Filled(e.website) == e.website.Some?;
      assert Filled(e.address) == e.address.Some?;
    }
  }

  /** `_entity_from_jsonld_item`: clean the name, the address and the phone,
      build the record, then total its score field by field. */
  method EntityFromJsonLdItem(item: map<string, Json>, url: string, lib: Libraries)
    returns (r: Result<Entity>)
    ensures r == ItemEntity(item, url, lib)
  {
    var name :- CleanText(Get(item, "name"), lib);
    var addr :- AddressFields(Get(item, "address"), lib);
    var tel := Get(item, "telephone");
    var phones: seq<string> := [];
    if Truthy(tel) {
      var cleaned := CleanStr(PyStr(tel, lib), lib);
      if cleaned.Some? {
        phones := [cleaned.value];
      }
    }
    var entityType := EntityTypeOf(Get(item, "@type"), lib);
    var website :- CleanText(Or(Get(item, "url"), JStr(url)), lib);
    var ent := Entity(entityType, name, addr.street, addr.locality, addr.region, addr.postalCode,
                      addr.country, phones, [], website, map[], None, [], Rating(item, lib), 0);
    var score := 0;
    score := score + Points(Filled(name), 30);
    score := score + Points(phones != [], 25);
    score := score + Points(Filled(ent.website), 10);
    score := score + Points(Filled(ent.address), 10);
    score := score + Points(ent.rating.Some?, 25);
    ent := ent.(dataQuality := Min(100, score));
    assert ent == Record(item, lib, name, addr, website);
    return Ok(ent);
  }

  /** The record builder the JSON-LD passes apply, for one page url. */
  function Build(url: string, lib: Libraries): map<string, Json> -> Result<Entity> {
    item => ItemEntity(item, url, lib)
  }

  /** Every record a builder produces is structured. */
  ghost predicate BuildsStructured(build: map<string, Json> -> Result<Entity>) {
    forall item :: build(item).Ok? ==> Structured(build(item).value)
  }

  lemma BuildStructured(url: string, lib: Libraries)
    ensures BuildsStructured(Build(url, lib))
  {
    forall item | Build(url, lib)(item).Ok? ensures Structured(Build(url, lib)(item).value) {
      ItemEntityShape(item, url, lib);
    }
  }

  // ---------------------------------------------------------------------
  // Pass 1: ItemList listings

  /** A list element whose `item` is a mapping of an allowed type. */
  predicate Qualifies(li: Json) {
    li.JObj? && Get(li.fields, "item").JObj?
    && TypeMatches(Get(Get(li.fields, "item").fields, "@type"), AllowedTypes)
  }

  /** The `item` mappings of the qualifying list elements, in order. */
  function QualifyingItems(elems: seq<Json>): (items: seq<map<string, Json>>)
    ensures |items| <= |elems|
  {
    if elems == [] then []
    else (if Qualifies(elems[0]) then [Get(elems[0].fields, "item").fields] else [])
         + QualifyingItems(elems[1..])
  }

  function Extend(done: seq<Entity>, rest: Result<seq<Entity>>): Result<seq<Entity>> {
    match rest
    case Ok(v) => Ok(done + v)
    case Err(e) => Err(e)
  }

  lemma ExtendNil(r: Result<seq<Entity>>)
    ensures Extend([], r) == r
  {
    if r.Ok? {
      assert [] + r.value == r.value;
    }
  }

  lemma ExtendExtend(a: seq<Entity>, b: seq<Entity>, r: Result<seq<Entity>>)
    ensures Extend(a, Extend(b, r)) == Extend(a + b, r)
  {
    if r.Ok? {
      assert a + (b + r.value) == (a + b) + r.value;
    }
  }

  /** The records of the list elements, left to right, the first raise escaping. */
  function ListEntities(elems: seq<Json>, build: map<string, Json> -> Result<Entity>): Result<seq<Entity>>
    decreases |elems|
  {
    if elems == [] then Ok([])
    else if Qualifies(elems[0]) then
      var e :- build(Get(elems[0].fields, "item").fields);
      Extend([e], ListEntities(elems[1..], build))
    else ListEntities(elems[1..], build)
  }

  lemma ListEntitiesStep(es: seq<Json>, k: nat, build: map<string, Json> -> Result<Entity>)
    requires k < |es|
    ensures ListEntities(es[k..], build) ==
      if Qualifies(es[k]) then
        match build(Get(es[k].fields, "item").fields)
        case Ok(e) => Extend([e], ListEntities(es[k + 1..], build))
        case Err(x) => Err(x)
      else ListEntities(es[k + 1..], build)
  {
    assert es[k..][1..] == es[k + 1..];
  }

  /** `_from_itemlist` as a value. */
  function ItemListEntities(block: map<string, Json>, build: map<string, Json> -> Result<Entity>)
    : Result<seq<Entity>>
  {
    match Get(block, "itemListElement")
    case JList(es) => ListEntities(es, build)
    case _ => Ok([])
  }

  /** The listing records are one record per qualifying element, in order;
      the listing raises exactly when one of those records does. */
  lemma {:induction false} ListEntitiesSpec(elems: seq<Json>, build: map<string, Json> -> Result<Entity>)
    ensures var r := ListEntities(elems, build);
      var items := QualifyingItems(elems);
      (r.Ok? ==> |r.value| == |items| && forall k | 0 <= k < |items| :: build(items[k]) == Ok(r.value[k]))
      && (r.Err? <==> exists k | 0 <= k < |items| :: build(items[k]).Err?)
    decreases |elems|
  {
    if elems != [] {
      ListEntitiesSpec(elems[1..], build);
      var items := QualifyingItems(elems);
      var tail := QualifyingItems(elems[1..]);
      var r := ListEntities(elems, build);
      if Qualifies(elems[0]) {
        var first := Get(elems[0].fields, "item").fields;
        assert items == [first] + tail;
        assert forall k | 1 <= k < |items| :: items[k] == tail[k - 1];
        if build(first).Ok? {
          var rest := ListEntities(elems[1..], build);
          if rest.Ok? {
            assert r.value == [build(first).value] + rest.value;
            assert forall k | 0 <= k < |items| :: build(items[k]) == Ok(r.value[k]);
          } else {
            var k :| 0 <= k < |tail| && build(tail[k]).Err?;
            assert build(items[k + 1]).Err?;
          }
        } else {
          assert build(items[0]).Err?;
        }
      } else {
        assert items == tail;
      }
    }
  }

  /** Every listing record comes from the builder, so it is structured when
      the builder's records are. */
  lemma ListEntitiesStructured(elems: seq<Json>, build: map<string, Json> -> Result<Entity>)
    requires BuildsStructured(build)
    ensures ListEntities(elems, build).Ok? ==>
      forall e | e in ListEntities(elems, build).value :: Structured(e)
  {
    ListEntitiesSpec(elems, build);
    var r := ListEntities(elems, build);
    if r.Ok? {
      var items := QualifyingItems(elems);
      forall e | e in r.value ensures Structured(e) {
        var k :| 0 <= k < |r.value| && r.value[k] == e;
        assert build(items[k]) == Ok(e);
      }
    }
  }

  /** `_from_itemlist`: nothing unless `itemListElement` is a list; elements
      that are not mappings, or whose `item` is not a mapping of an allowed
      type, are skipped. */
  method FromItemList(block: map<string, Json>, url: string, lib: Libraries)
    returns (r: Result<seq<Entity>>)
    ensures r == ItemListEntities(block, Build(url, lib))
  {
    var items: seq<Entity> := [];
    var elems := Get(block, "itemListElement");
    if !elems.JList? {
      return Ok(items);
    }
    var es := elems.elems;
    ghost var build := Build(url, lib);
    assert es[0..] == es;
    ExtendNil(ListEntities(es, build));
    for k := 0 to |es|
      invariant ListEntities(es, build) == Extend(items, ListEntities(es[k..], build))
    {
      ListEntitiesStep(es, k, build);
      var li := es[k];
      if !li.JObj? {
        continue;
      }
      var item := Get(li.fields, "item");
      if !item.JObj? {
        continue;
      }
      if TypeMatches(Get(item.fields, "@type"), AllowedTypes) {
        var ent :- EntityFromJsonLdItem(item.fields, url, lib);
        ExtendExtend(items, [ent], ListEntities(es[k + 1..], build));
        items := items + [ent];
      }
    }
    assert es[|es|..] == [];
    assert items + [] == items;
    return Ok(items);
  }

  // ---------------------------------------------------------------------
  // Passes 1 and 2 over the JSON-LD blocks

  /** A block whose `@type` is exactly the string "ItemList". */
  function IsItemList(block: Json): bool {
    block.JObj? && Get(block.fields, "@type") == JStr("ItemList")
  }

  /** A block of an allowed business type. */
  function IsBusiness(block: Json): bool {
    block.JObj? && TypeMatches(Get(block.fields, "@type"), AllowedTypes)
  }

  /** Pass 1: the listing records of every ItemList block, in block order. */
  function ListPass(blocks: seq<Json>, build: map<string, Json> -> Result<Entity>): Result<seq<Entity>>
    decreases |blocks|
  {
    if blocks == [] then Ok([])
    else if IsItemList(blocks[0]) then
      var items :- ItemListEntities(blocks[0].fields, build);
      Extend(items, ListPass(blocks[1..], build))
    else ListPass(blocks[1..], build)
  }

  /** Pass 2: one record per business block, in block order. */
  function BusinessPass(blocks: seq<Json>, build: map<string, Json> -> Result<Entity>): Result<seq<Entity>>
    decreases |blocks|
  {
    if blocks == [] then Ok([])
    else if IsBusiness(blocks[0]) then
      var e :- build(blocks[0].fields);
      Extend([e], BusinessPass(blocks[1..], build))
    else BusinessPass(blocks[1..], build)
  }

  lemma ListPassStep(blocks: seq<Json>, i: nat, build: map<string, Json> -> Result<Entity>)
    requires i < |blocks|
    ensures ListPass(blocks[i..], build) ==
      if IsItemList(blocks[i]) then
        match ItemListEntities(blocks[i].fields, build)
        case Ok(items) => Extend(items, ListPass(blocks[i + 1..], build))
        case Err(x) => Err(x)
      else ListPass(blocks[i + 1..], build)
  {
    assert blocks[i..][1..] == blocks[i + 1..];
  }

  lemma BusinessPassStep(blocks: seq<Json>, i: nat, build: map<string, Json> -> Result<Entity>)
    requires i < |blocks|
    ensures BusinessPass(blocks[i..], build) ==
      if IsBusiness(blocks[i]) then
        match build(blocks[i].fields)
        case Ok(e) => Extend([e], BusinessPass(blocks[i + 1..], build))
        case Err(x) => Err(x)
      else BusinessPass(blocks[i + 1..], build)
  {
    assert blocks[i..][1..] == blocks[i + 1..];
  }

  lemma {:induction false} ListPassStructured(blocks: seq<Json>, build: map<string, Json> -> Result<Entity>)
    requires BuildsStructured(build)
    ensures ListPass(blocks, build).Ok? ==> forall e | e in ListPass(blocks, build).value :: Structured(e)
    decreases |blocks|
  {
    if blocks != [] {
      ListPassStructured(blocks[1..], build);
      if IsItemList(blocks[0]) {
        var es := Get(blocks[0].fields, "itemListElement");
        if es.JList? {
          ListEntitiesStructured(es.elems, build);
        }
      }
    }
  }

  lemma {:induction false} BusinessPassStructured(blocks: seq<Json>, build: map<string, Json> -> Result<Entity>)
    requires BuildsStructured(build)
    ensures BusinessPass(blocks, build).Ok? ==> forall e | e in BusinessPass(blocks, build).value :: Structured(e)
    decreases |blocks|
  {
    if blocks != [] {
      BusinessPassStructured(blocks[1..], build);
    }
  }

  // ---------------------------------------------------------------------
  // Pass 3: the visible-contact fallback

  /** `_clean_text(p) or p`. */
  function CleanPhone(p: string, lib: Libraries): string {
    CleanStr(p, lib).GetOr(p)
  }

  /** A phone candidate with at least seven digits. */
  predicate LongEnough(p: string) {
    DigitCount(p) >= 7
  }

  /** A string without digits has none to count. */
  lemma {:induction false} DigitCountNone(s: string)
    requires forall i | 0 <= i < |s| :: !IsDigit(s[i])
    ensures DigitCount(s) == 0
    decreases |s|
  {
    if s != [] {
      DigitCountNone(s[1..]);
    }
  }

  /** The seven-digit test reads only the digits: separators such as spaces,
      dots, dashes or parentheses inserted into a candidate never change
      whether it is kept. */
  lemma SeparatorsIgnored(a: string, sep: string, b: string)
    requires forall i | 0 <= i < |sep| :: !IsDigit(sep[i])
    ensures LongEnough(a + sep + b) == LongEnough(a + b)
  {
    DigitCountNone(sep);
    DigitCountAppend(a + sep, b);
    DigitCountAppend(a, sep);
    DigitCountAppend(a, b);
  }

  /** The phone values the fallback keeps, as a set. */
  function PhoneValues(candidates: set<string>, lib: Libraries): set<string> {
    set p | p in candidates && LongEnough(p) :: CleanPhone(p, lib)
  }

  function KeptPhones(candidates: seq<string>, lib: Libraries): (r: seq<string>)
    ensures Elements(r) == PhoneValues(Elements(candidates), lib)
  {
    if candidates == [] then []
    else
      var rest := KeptPhones(candidates[1..], lib);
      var p := candidates[0];
      assert Elements(candidates) == {p} + Elements(candidates[1..]);
      assert PhoneValues(Elements(candidates), lib)
        == (if LongEnough(p) then {CleanPhone(p, lib)} else {}) + PhoneValues(Elements(candidates[1..]), lib);
      if LongEnough(p) then [CleanPhone(p, lib)] + rest else rest
  }

  /** `_collect_phones` as a value: the kept phone values, without repeats,
      in string order. */
  function PhonesOf(text: string, lib: Libraries): (r: seq<string>)
    ensures StrictlySorted(r)
    ensures Elements(r) == PhoneValues(Elements(lib.phoneMatches(text)), lib)
  {
    SortUnique(KeptPhones(lib.phoneMatches(text), lib))
  }

  /** `_collect_phones`: walk the set of matches in whatever order it yields
      them, keep the cleaned form of each long enough candidate, then sort the
      distinct values. The result does not depend on the walking order. */
  method CollectPhones(text: string, lib: Libraries) returns (phones: seq<string>)
    ensures phones == PhonesOf(text, lib)
  {
    var raw := Elements(lib.phoneMatches(text));
    var rest := raw;
    var out: seq<string> := [];
    ghost var seen: set<string> := {};
    while rest != {}
      invariant rest <= raw && seen == raw - rest
      invariant Elements(out) == PhoneValues(seen, lib)
      decreases rest
    {
      var p :| p in rest;
      assert PhoneValues(seen + {p}, lib)
        == PhoneValues(seen, lib) + (if LongEnough(p) then {CleanPhone(p, lib)} else {});
      if DigitCount(p) >= 7 {
        out := out + [CleanPhone(p, lib)];
      }
      rest := rest - {p};
      seen := seen + {p};
    }
    phones := SortUnique(out);
    SortedListingUnique(phones, PhonesOf(text, lib));
  }

  /** An address the e-mail fallback keeps: not certified mail and not a
      "no-reply" sender. */
  function KeepEmail(e: string): bool {
    !IsPec(e) && !StartsWith(Lower(e), "no-reply")
  }

  function KeptEmails(candidates: seq<string>): (r: seq<string>)
    ensures Elements(r) == set e | e in candidates && KeepEmail(e)
  {
    if candidates == [] then []
    else
      var rest := KeptEmails(candidates[1..]);
      var c := candidates[0];
      assert (set e | e in candidates && KeepEmail(e))
        == (if KeepEmail(c) then {c} else {}) + (set e | e in candidates[1..] && KeepEmail(e));
      if KeepEmail(c) then [c] + rest else rest
  }

  /** `_collect_emails`: the distinct kept addresses in string order. */
  function EmailsOf(html: string, lib: Libraries): (r: seq<string>)
    ensures StrictlySorted(r)
    ensures Elements(r) == set e | e in lib.emailMatches(html) && KeepEmail(e)
    ensures forall e | e in r :: !IsPec(e) && !StartsWith(Lower(e), "no-reply")
  {
    var r := SortUnique(KeptEmails(lib.emailMatches(html)));
    assert forall e | e in r :: e in Elements(r);
    r
  }

  /** Certified mail is dropped. */
  lemma PecEmailDropped()
    ensures !KeepEmail("info@pec.it")
  {
    PecExamples();
  }

  /** An ordinary address is kept. */
  lemma PlainEmailKept()
    ensures KeepEmail("info@ristorante.com")
  {
    NotPecExample();
    var lower := Lower("info@ristorante.com");
    assert lower == "info@ristorante.com";
    assert lower[..8][0] == 'i';
  }

  /** A "no-reply" sender is dropped whatever its letter case. */
  lemma NoReplyEmailDropped()
    ensures !KeepEmail("No-Reply@ristorante.com")
  {
    assert Lower("No-Reply@ristorante.com")[..8] == "no-reply";
  }

  /** The fallback record; its website is the page url as given. */
  function FallbackRecord(name: Option<string>, phones: seq<string>, emails: seq<string>, url: string): Entity {
    Entity(None, name, None, None, None, None, None, phones, emails, Some(url), map[], None, [], None,
           Min(100, Points(phones != [], 25) + Points(emails != [], 25) + Points(url != "", 10)))
  }

  /** The page title, cleaned, when the page has one. */
  function TitleName(html: string, lib: Libraries): Option<string> {
    match lib.title(html)
    case Some(t) => if t != "" then CleanStr(t, lib) else None
    case None => None
  }

  /** Pass 3: one record when visible phones or e-mails were found, else none. */
  function Fallback(html: string, url: string, lib: Libraries): (r: seq<Entity>)
    ensures |r| <= 1
    ensures r == [] <==> PhonesOf(lib.pageText(html), lib) == [] && EmailsOf(html, lib) == []
    ensures r != [] ==> r[0].phones == PhonesOf(lib.pageText(html), lib) && r[0].emails == EmailsOf(html, lib)
    ensures r != [] ==>
      r[0].website == Some(url) && r[0].entityType == None
      && r[0].address == None && r[0].rating == None && 25 <= r[0].dataQuality <= 60
    ensures r != [] ==>
      r[0].dataQuality == Points(r[0].phones != [], 25) + Points(r[0].emails != [], 25) + Points(url != "", 10)
  {
    var phones := PhonesOf(lib.pageText(html), lib);
    var emails := EmailsOf(html, lib);
    if phones != [] || emails != [] then [FallbackRecord(TitleName(html, lib), phones, emails, url)] else []
  }

  // ---------------------------------------------------------------------
  // parse_entity

  /** `parse_entity` as a value: the first pass that finds records wins. */
  function Parse(html: string, url: string, lib: Libraries): Result<seq<Entity>> {
    var blocks := lib.jsonLd(html, url);
    var listed :- ListPass(blocks, Build(url, lib));
    if listed != [] then Ok(listed)
    else
      var single :- BusinessPass(blocks, Build(url, lib));
      if single != [] then Ok(single) else Ok(Fallback(html, url, lib))
  }

  /** Every record scores at most 100. Records with e-mail addresses come only
      from the fallback, which yields a single record and only when both
      JSON-LD passes found nothing. */
  lemma ParseShape(html: string, url: string, lib: Libraries)
    ensures Parse(html, url, lib).Ok? ==> forall e | e in Parse(html, url, lib).value :: e.dataQuality <= 100
    ensures Parse(html, url, lib).Ok? && (exists e | e in Parse(html, url, lib).value :: e.emails != []) ==>
      var blocks := lib.jsonLd(html, url);
      ListPass(blocks, Build(url, lib)) == Ok([]) && BusinessPass(blocks, Build(url, lib)) == Ok([])
      && Parse(html, url, lib).value == Fallback(html, url, lib) && |Parse(html, url, lib).value| == 1
  {
    var blocks := lib.jsonLd(html, url);
    BuildStructured(url, lib);
    ListPassStructured(blocks, Build(url, lib));
    BusinessPassStructured(blocks, Build(url, lib));
  }

  /** `parse_entity`: the ItemList pass, the business-block pass when it found
      nothing, and the visible-contact fallback when both found nothing. */
  method ParseEntity(html: string, url: string, lib: Libraries) returns (r: Result<seq<Entity>>)
    ensures r == Parse(html, url, lib)
  {
    var blocks := lib.jsonLd(html, url);
    ghost var build := Build(url, lib);
    var results: seq<Entity> := [];
    assert blocks[0..] == blocks;
    ExtendNil(ListPass(blocks, build));
    for i := 0 to |blocks|
      invariant ListPass(blocks, build) == Extend(results, ListPass(blocks[i..], build))
    {
      ListPassStep(blocks, i, build);
      var block := blocks[i];
      if block.JObj? && Get(block.fields, "@type") == JStr("ItemList") {
        var items :- FromItemList(block.fields, url, lib);
        ExtendExtend(results, items, ListPass(blocks[i + 1..], build));
        if items != [] {
          results := results + items;
        } else {
          assert results + items == results;
        }
      }
    }
    assert blocks[|blocks|..] == [];
    assert results + [] == results;
    if results == [] {
      ExtendNil(BusinessPass(blocks, build));
      for i := 0 to |blocks|
        invariant ListPass(blocks, build) == Ok([])
        invariant BusinessPass(blocks, build) == Extend(results, BusinessPass(blocks[i..], build))
      {
        BusinessPassStep(blocks, i, build);
        var block := blocks[i];
        if !block.JObj? {
          continue;
        }
        if TypeMatches(Get(block.fields, "@type"), AllowedTypes) {
          var ent :- EntityFromJsonLdItem(block.fields, url, lib);
          ExtendExtend(results, [ent], BusinessPass(blocks[i + 1..], build));
          results := results + [ent];
        }
      }
      assert results + [] == results;
    }
    if results == [] {
      var phones := CollectPhones(lib.pageText(html), lib);
      var emails := EmailsOf(html, lib);
      if phones != [] || emails != [] {
        results := [FallbackRecord(TitleName(html, lib), phones, emails, url)];
      }
    }
    return Ok(results);
  }

  // ---------------------------------------------------------------------
  // Worked pages

  function Listing(name: string): Json {
    JObj(map["@type" := JStr("ListItem"),
             "item" := JObj(map["@type" := JStr("Restaurant"), "name" := JStr(name)])])
  }

  lemma ListingRecord(name: string, url: string, lib: Libraries)
    requires name != "" && Collapsed(name) && Unescaped(name) == name && lib.normalise(name) == name
    ensures Qualifies(Listing(name))
    ensures var r := ItemEntity(Get(Listing(name).fields, "item").fields, url, lib);
      r.Ok? && r.value.name == Some(name) && r.value.entityType == Some("Restaurant")
  {
    CollapseFixed(name);
    var item := Get(Listing(name).fields, "item").fields;
    assert Get(item, "name") == JStr(name);
    assert CleanText(Get(item, "name"), lib) == Ok(Some(name));
    assert AddressOf(Get(item, "address"), lib) == Ok(NoAddress);
    assert TypeMatches(Get(item, "@type"), {"Restaurant"});
  }

  /** An ItemList of two restaurants yields their two records, in list order. */
  lemma TwoRestaurantsExample(html: string, url: string, lib: Libraries)
    requires lib.jsonLd(html, url)
      == [JObj(map["@type" := JStr("ItemList"), "itemListElement" := JList([Listing("A"), Listing("B")])])]
    requires lib.normalise("A") == "A" && lib.normalise("B") == "B"
    ensures Parse(html, url, lib).Ok?
    ensures var xs := Parse(html, url, lib).value;
      |xs| == 2 && xs[0].name == Some("A") && xs[1].name == Some("B")
      && xs[0].entityType == Some("Restaurant") && xs[1].entityType == Some("Restaurant")
  {
    assert Unescaped("A") == "A" && Unescaped("B") == "B";
    ListingRecord("A", url, lib);
    ListingRecord("B", url, lib);
    var build := Build(url, lib);
    var es := [Listing("A"), Listing("B")];
    var items := [Get(Listing("A").fields, "item").fields, Get(Listing("B").fields, "item").fields];
    assert es[1..][1..] == [];
    assert QualifyingItems(es) == items;
    ListEntitiesSpec(es, build);
    assert build(items[0]).Ok? && build(items[1]).Ok?;
    OneBlockListPass(lib.jsonLd(html, url), es, build);
  }

  /** A page whose only block is an ItemList gets exactly that list's records
      from the first pass. */
  lemma OneBlockListPass(blocks: seq<Json>, es: seq<Json>, build: map<string, Json> -> Result<Entity>)
    requires |blocks| == 1 && IsItemList(blocks[0]) && Get(blocks[0].fields, "itemListElement") == JList(es)
    ensures ListPass(blocks, build) == ListEntities(es, build)
  {
    assert blocks[1..] == [];
    ExtendNil(ListEntities(es, build));
    if ListEntities(es, build).Ok? {
      assert ListEntities(es, build).value + [] == ListEntities(es, build).value;
    }
  }

  lemma TelephoneRecord(tel: string, url: string, lib: Libraries)
    requires tel != "" && Collapsed(tel) && lib.normalise(Unescaped(tel)) == tel
    ensures var r := ItemEntity(map["@type" := JStr("LocalBusiness"), "telephone" := JStr(tel)], url, lib);
      r.Ok? && r.value.phones == [tel] && r.value.name == None && r.value.dataQuality >= 25
  {
    CollapseFixed(tel);
    var item := map["@type" := JStr("LocalBusiness"), "telephone" := JStr(tel)];
    assert CleanStr(PyStr(Get(item, "telephone"), lib), lib) == Some(tel);
    assert CleanText(Get(item, "name"), lib) == Ok(None);
    assert AddressOf(Get(item, "address"), lib) == Ok(NoAddress);
    ItemEntityShape(item, url, lib);
  }

  /** The first pass finds nothing on a page with no ItemList block; the
      second then yields the record of its one business block. */
  lemma SecondBlockBusinessPass(blocks: seq<Json>, build: map<string, Json> -> Result<Entity>)
    requires |blocks| == 2 && !IsItemList(blocks[0]) && !IsItemList(blocks[1])
    requires !IsBusiness(blocks[0]) && IsBusiness(blocks[1]) && build(blocks[1].fields).Ok?
    ensures ListPass(blocks, build) == Ok([])
    ensures BusinessPass(blocks, build) == Ok([build(blocks[1].fields).value])
  {
    assert blocks[0..] == blocks && blocks[2..] == [];
    ListPassStep(blocks, 0, build);
    ListPassStep(blocks, 1, build);
    BusinessPassStep(blocks, 0, build);
    BusinessPassStep(blocks, 1, build);
    assert [build(blocks[1].fields).value] + [] == [build(blocks[1].fields).value];
  }

  /** A LocalBusiness block with a telephone yields one record carrying that
      phone; a block whose `@type` is a list is not read as an ItemList. */
  lemma SingleBusinessExample(html: string, url: string, lib: Libraries, tel: string)
    requires tel != "" && Collapsed(tel) && lib.normalise(Unescaped(tel)) == tel
    requires lib.jsonLd(html, url)
      == [JObj(map["@type" := JList([JStr("ItemList")])]),
          JObj(map["@type" := JStr("LocalBusiness"), "telephone" := JStr(tel)])]
    ensures Parse(html, url, lib).Ok?
    ensures var xs := Parse(html, url, lib).value;
      |xs| == 1 && xs[0].phones == [tel] && xs[0].name == None && xs[0].dataQuality >= 25
  {
    var blocks := lib.jsonLd(html, url);
    var item := map["@type" := JStr("LocalBusiness"), "telephone" := JStr(tel)];
    TelephoneRecord(tel, url, lib);
    ExampleBlockKinds(blocks, item, tel);
    assert Build(url, lib)(item) == ItemEntity(item, url, lib);
    SecondBlockBusinessPass(blocks, Build(url, lib));
    assert Parse(html, url, lib) == Ok([ItemEntity(item, url, lib).value]);
  }

  lemma ExampleBlockKinds(blocks: seq<Json>, item: map<string, Json>, tel: string)
    requires item == map["@type" := JStr("LocalBusiness"), "telephone" := JStr(tel)]
    requires blocks == [JObj(map["@type" := JList([JStr("ItemList")])]), JObj(item)]
    ensures |blocks| == 2 && !IsItemList(blocks[0]) && !IsItemList(blocks[1])
    ensures !IsBusiness(blocks[0]) && IsBusiness(blocks[1]) && blocks[1].fields == item
  {
    assert Get(blocks[0].fields, "@type") == JList([JStr("ItemList")]);
    assert "ItemList" !in AllowedTypes;
    assert Get(blocks[1].fields, "@type") == JStr("LocalBusiness");
  }
}
