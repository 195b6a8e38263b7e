/** The record types of an IIIF Change Discovery activity stream and their
    decoding constructors (Resource, Activity, OrderedCollectionPage,
    OrderedCollection), with the type-tag enumerations they check against.

    Every decoder follows the constructor it models statement by statement,
    so the first failing statement decides the error. An attribute whose
    dataclass default is None is a Json that is null when the key is absent. */
module Records {
  import opened Json

  datatype Option<T> = None | Some(value: T)

  /** The exceptions the constructors and the traversal raise, by cause. */
  datatype Error =
    | NotAnObject                     // TypeError: subscripting a value that is not a dict
    | MissingField(key: string)       // KeyError on d[key]
    | UnknownActivityKind(tag: Json)  // ValueError from the ActivityType lookup
    | BadTypeTag(tag: Json)           // ValueError from the page or collection type lookup
    | NotIterable(value: Json)        // TypeError: iterating a number, a boolean or null
    | NotAUrl(target: Json)           // urlopen handed a value that is not a string
    | TransportFailure(url: string)   // the request or the parse of its body failed

  datatype Result<T> = Ok(value: T) | Err(error: Error)

  // ---------------------------------------------------------------------
  // Type tags
  // ---------------------------------------------------------------------

  datatype ActivityType = Create | Update | Delete | Move | Add | Remove | Refresh
  datatype OrderedCollectionPageType = OrderedCollectionPageTag
  datatype OrderedCollectionType = OrderedCollectionTag

  const ActivityTypeNames: set<string> :=
    {"Create", "Update", "Delete", "Move", "Add", "Remove", "Refresh"}
  const PageTypeName: string := "OrderedCollectionPage"
  const CollectionTypeName: string := "OrderedCollection"

  /** The string value of each ActivityType member. */
  function ActivityTypeName(k: ActivityType): (name: string)
    ensures name in ActivityTypeNames
  {
    match k
    case Create => "Create"
    case Update => "Update"
    case Delete => "Delete"
    case Move => "Move"
    case Add => "Add"
    case Remove => "Remove"
    case Refresh => "Refresh"
  }

  /** `ActivityType(tag)`: a StrEnum lookup by value, which finds a member
      only for a string equal to one of the seven values. */
  function ParseActivityType(tag: Json): (k: Option<ActivityType>)
    ensures k.Some? <==> tag.JString? && tag.s in ActivityTypeNames
    ensures k.Some? ==> tag == JString(ActivityTypeName(k.value))
  {
    if tag == JString("Create") then Some(Create)
    else if tag == JString("Update") then Some(Update)
    else if tag == JString("Delete") then Some(Delete)
    else if tag == JString("Move") then Some(Move)
    else if tag == JString("Add") then Some(Add)
    else if tag == JString("Remove") then Some(Remove)
    else if tag == JString("Refresh") then Some(Refresh)
    else None
  }

  /** Every member is found again from its own value, so the lookup and the
      names are inverse on the seven kinds. */
  lemma ActivityTypeRoundTrip(k: ActivityType)
    ensures ParseActivityType(JString(ActivityTypeName(k))) == Some(k)
  {
  }

  /** `OrderedCollectionPageType(tag)`: a one-member StrEnum lookup. */
  function ParsePageType(tag: Json): (t: Option<OrderedCollectionPageType>)
    ensures t.Some? <==> tag == JString(PageTypeName)
  {
    if tag == JString(PageTypeName) then Some(OrderedCollectionPageTag) else None
  }

  /** `OrderedCollectionType(tag)`: a one-member StrEnum lookup. */
  function ParseCollectionType(tag: Json): (t: Option<OrderedCollectionType>)
    ensures t.Some? <==> tag == JString(CollectionTypeName)
  {
    if tag == JString(CollectionTypeName) then Some(OrderedCollectionTag) else None
  }

  // ---------------------------------------------------------------------
  // Records
  // ---------------------------------------------------------------------

  datatype Resource = Resource(
    id: Json,          // may be null, but the key must be present
    rtype: Json,
    seeAlso: Json,
    canonical: Json,
    provider: Json)

  datatype Activity = Activity(
    id: Json,
    kind: ActivityType,
    obj: Resource,
    target: Json,
    summary: Json,
    endTime: Json,     // timestamps are kept as the raw JSON values
    startTime: Json,
    actor: Json)

  datatype OrderedCollectionPage = OrderedCollectionPage(
    id: Json,
    ptype: OrderedCollectionPageType,
    startIndex: Json,  // copied without a range check
    partOf: Json,
    items: seq<Activity>,
    prev: Json,
    next: Json)

  datatype OrderedCollection = OrderedCollection(
    id: Json,
    context: Json,
    ctype: OrderedCollectionType,
    last: Json,
    first: Option<Json>,   // the attribute has no default: None means never set
    totalItems: Json)

  /** Two objects that agree on `keys`: same keys present, same values there. */
  ghost predicate AgreeOn(m: map<string, Json>, m': map<string, Json>, keys: set<string>) {
    forall k :: k in keys ==> (k in m <==> k in m') && (k in m ==> m[k] == m'[k])
  }

  const ResourceKeys: set<string> := {"id", "type", "seeAlso", "canonical", "provider"}
  const ActivityKeys: set<string> :=
    {"id", "type", "object", "target", "summary", "endTime", "startTime", "actor"}
  const PageKeys: set<string> :=
    {"id", "type", "startIndex", "partOf", "prev", "next", "orderedItems"}
  const CollectionKeys: set<string> := {"id", "@context", "first", "last", "type", "totalItems"}

  // ---------------------------------------------------------------------
  // Resource
  // ---------------------------------------------------------------------

  /** `Resource(d)`: `id` and `type` are required (either may hold any value,
      null included); `seeAlso`, `canonical` and `provider` are copied when
      present and are None otherwise. */
  function DecodeResource(j: Json): (r: Result<Resource>)
    ensures r.Ok? <==> j.JObject? && "id" in j.fields && "type" in j.fields
    ensures !j.JObject? ==> r == Err(NotAnObject)
    ensures j.JObject? && "id" !in j.fields ==> r == Err(MissingField("id"))
    ensures j.JObject? && "id" in j.fields && "type" !in j.fields ==> r == Err(MissingField("type"))
    ensures r.Ok? ==>
      && r.value.id == j.fields["id"] && r.value.rtype == j.fields["type"]
      && r.value.seeAlso == Attr(j.fields, "seeAlso")
      && r.value.canonical == Attr(j.fields, "canonical")
      && r.value.provider == Attr(j.fields, "provider")
  {
    if !j.JObject? then Err(NotAnObject)
    else
      var d := j.fields;
      if "id" !in d then Err(MissingField("id"))
      else if "type" !in d then Err(MissingField("type"))
      else
        var seeAlso := if "seeAlso" in d then d["seeAlso"] else JNull;
        var canonical := if "canonical" in d then d["canonical"] else JNull;
        var provider := if "provider" in d then d["provider"] else JNull;
        Ok(Resource(d["id"], d["type"], seeAlso, canonical, provider))
  }

  /** The inverse of DecodeResource: an object holding exactly the record's
      fields, with the optional ones left out when they are None. */
  function EncodeResource(res: Resource): Json {
    var m := map["id" := res.id, "type" := res.rtype];
    var m := With(m, "seeAlso", res.seeAlso);
    var m := With(m, "canonical", res.canonical);
    JObject(With(m, "provider", res.provider))
  }

  lemma ResourceRoundTrip(res: Resource)
    ensures DecodeResource(EncodeResource(res)) == Ok(res)
  {
  }

  /** Keys other than the five a Resource knows play no part in decoding it. */
  lemma ResourceReadsOnlyItsKeys(m: map<string, Json>, m': map<string, Json>)
    requires AgreeOn(m, m', ResourceKeys)
    ensures DecodeResource(JObject(m)) == DecodeResource(JObject(m'))
  {
  }

  // ---------------------------------------------------------------------
  // Activity
  // ---------------------------------------------------------------------

  /** `Activity(d)`: `id`, then `type` (which must name one of the seven
      kinds), then `object` (decoded as a Resource, whose failure is the
      Activity's) are required; the five optional keys are copied. */
  function DecodeActivity(j: Json): (r: Result<Activity>)
    ensures r.Ok? <==>
      && j.JObject? && "id" in j.fields && "type" in j.fields
      && ParseActivityType(j.fields["type"]).Some?
      && "object" in j.fields && DecodeResource(j.fields["object"]).Ok?
    ensures !j.JObject? ==> r == Err(NotAnObject)
    ensures j.JObject? && "id" !in j.fields ==> r == Err(MissingField("id"))
    ensures j.JObject? && "id" in j.fields && "type" !in j.fields ==> r == Err(MissingField("type"))
    ensures j.JObject? && "id" in j.fields && "type" in j.fields
            && !(j.fields["type"].JString? && j.fields["type"].s in ActivityTypeNames)
            ==> r == Err(UnknownActivityKind(j.fields["type"]))
    ensures j.JObject? && "id" in j.fields && "type" in j.fields
            && ParseActivityType(j.fields["type"]).Some? && "object" !in j.fields
            ==> r == Err(MissingField("object"))
    ensures j.JObject? && "id" in j.fields && "type" in j.fields
            && ParseActivityType(j.fields["type"]).Some? && "object" in j.fields
            && DecodeResource(j.fields["object"]).Err?
            ==> r == Err(DecodeResource(j.fields["object"]).error)
    ensures r.Ok? ==>
      && j.fields["type"] == JString(ActivityTypeName(r.value.kind))
      && Ok(r.value.obj) == DecodeResource(j.fields["object"])
      && r.value.id == j.fields["id"]
      && r.value.target == Attr(j.fields, "target")
      && r.value.summary == Attr(j.fields, "summary")
      && r.value.endTime == Attr(j.fields, "endTime")
      && r.value.startTime == Attr(j.fields, "startTime")
      && r.value.actor == Attr(j.fields, "actor")
  {
    if !j.JObject? then Err(NotAnObject)
    else
      var d := j.fields;
      if "id" !in d then Err(MissingField("id"))
      else if "type" !in d then Err(MissingField("type"))
      else
        match ParseActivityType(d["type"])
        case None => Err(UnknownActivityKind(d["type"]))
        case Some(kind) =>
          if "object" !in d then Err(MissingField("object"))
          else
            match DecodeResource(d["object"])
            case Err(e) => Err(e)
            case Ok(obj) =>
              var target := if "target" in d then d["target"] else JNull;
              var summary := if "summary" in d then d["summary"] else JNull;
              var endTime := if "endTime" in d then d["endTime"] else JNull;
              var startTime := if "startTime" in d then d["startTime"] else JNull;
              var actor := if "actor" in d then d["actor"] else JNull;
              Ok(Activity(d["id"], kind, obj, target, summary, endTime, startTime, actor))
  }

  /** The inverse of DecodeActivity. */
  function EncodeActivity(a: Activity): Json {
    var m := map["id" := a.id, "type" := JString(ActivityTypeName(a.kind)),
                 "object" := EncodeResource(a.obj)];
    var m := With(m, "target", a.target);
    var m := With(m, "summary", a.summary);
    var m := With(m, "endTime", a.endTime);
    var m := With(m, "startTime", a.startTime);
    JObject(With(m, "actor", a.actor))
  }

  /** Where the required fields of an Activity land in its encoding. */
  lemma ActivityEncodingRequired(a: Activity)
    ensures var m := EncodeActivity(a).fields;
      && "id" in m && m["id"] == a.id
      && "type" in m && m["type"] == JString(ActivityTypeName(a.kind))
      && "object" in m && m["object"] == EncodeResource(a.obj)
  {
    var m0 := map["id" := a.id, "type" := JString(ActivityTypeName(a.kind)),
                  "object" := EncodeResource(a.obj)];
    var m1 := With(m0, "target", a.target);
    var m2 := With(m1, "summary", a.summary);
    var m3 := With(m2, "endTime", a.endTime);
    var m4 := With(m3, "startTime", a.startTime);
    assert EncodeActivity(a).fields == With(m4, "actor", a.actor);
  }

  /** Where the optional fields of an Activity land in its encoding. */
  lemma ActivityEncodingOptional(a: Activity)
    ensures var m := EncodeActivity(a).fields;
      && Attr(m, "target") == a.target && Attr(m, "summary") == a.summary
      && Attr(m, "endTime") == a.endTime && Attr(m, "startTime") == a.startTime
      && Attr(m, "actor") == a.actor
  {
    var m0 := map["id" := a.id, "type" := JString(ActivityTypeName(a.kind)),
                  "object" := EncodeResource(a.obj)];
    var m1 := With(m0, "target", a.target);
    var m2 := With(m1, "summary", a.summary);
    var m3 := With(m2, "endTime", a.endTime);
    var m4 := With(m3, "startTime", a.startTime);
    assert EncodeActivity(a).fields == With(m4, "actor", a.actor);
  }

  lemma ActivityRoundTrip(a: Activity)
    ensures DecodeActivity(EncodeActivity(a)) == Ok(a)
  {
    ActivityEncodingRequired(a);
    ActivityEncodingOptional(a);
    ResourceRoundTrip(a.obj);
    ActivityTypeRoundTrip(a.kind);
    var r := DecodeActivity(EncodeActivity(a));
    assert r.Ok?;
    assert r.value.kind == a.kind;
  }

  /** Keys other than the eight an Activity knows play no part in decoding it. */
  lemma ActivityReadsOnlyItsKeys(m: map<string, Json>, m': map<string, Json>)
    requires AgreeOn(m, m', ActivityKeys)
    ensures DecodeActivity(JObject(m)) == DecodeActivity(JObject(m'))
  {
  }

  // ---------------------------------------------------------------------
  // OrderedCollectionPage
  // ---------------------------------------------------------------------

  /** What `for item in v` walks over: an array's elements, a string's
      characters (each one a string again); a dict's keys, which are
      strings, so any non-empty dict fails at its first key exactly as
      a string does; numbers, booleans and null are not iterable. */
  function Iterate(v: Json): (r: Result<seq<Json>>)
    ensures v.JArray? ==> r == Ok(v.elems)
  {
    match v
    case JArray(xs) => Ok(xs)
    case JString(s) => Ok(seq(|s|, i requires 0 <= i < |s| => JString([s[i]])))
    case JObject(m) => if m == map[] then Ok([]) else Err(NotAnObject)
    case _ => Err(NotIterable(v))
  }

  /** `[Activity(item) for item in xs]`: all elements decode, in order, or
      the first failure is the result and nothing is kept. */
  function DecodeItems(xs: seq<Json>): (r: Result<seq<Activity>>)
    ensures r.Ok? <==> forall i :: 0 <= i < |xs| ==> DecodeActivity(xs[i]).Ok?
    ensures r.Ok? ==>
      |r.value| == |xs| && forall i :: 0 <= i < |xs| ==> DecodeActivity(xs[i]) == Ok(r.value[i])
    ensures r.Err? ==>
      exists i :: 0 <= i < |xs| && DecodeActivity(xs[i]) == Err(r.error)
                  && forall k :: 0 <= k < i ==> DecodeActivity(xs[k]).Ok?
  {
    if xs == [] then Ok([])
    else
      match DecodeActivity(xs[0])
      case Err(e) => Err(e)
      case Ok(a) =>
        match DecodeItems(xs[1..])
        case Err(e) =>
          ghost var i :| 0 <= i < |xs[1..]| && DecodeActivity(xs[1..][i]) == Err(e)
                         && forall k :: 0 <= k < i ==> DecodeActivity(xs[1..][k]).Ok?;
          assert DecodeActivity(xs[i + 1]) == Err(e);
          Err(e)
        case Ok(rest) => Ok([a] + rest)
  }

  /** The `orderedItems` value turned into the page's items. */
  function DecodeOrderedItems(v: Json): Result<seq<Activity>> {
    match Iterate(v)
    case Err(e) => Err(e)
    case Ok(xs) => DecodeItems(xs)
  }

  /** `OrderedCollectionPage(d)`: `id`, `type` (which must be
      "OrderedCollectionPage"), `startIndex`, `partOf` and `orderedItems` are
      required; `prev` and `next` are copied when present, null included. */
  function DecodePage(j: Json): (r: Result<OrderedCollectionPage>)
    ensures r.Ok? <==>
      && j.JObject? && "id" in j.fields && "type" in j.fields
      && j.fields["type"] == JString(PageTypeName)
      && "startIndex" in j.fields && "partOf" in j.fields && "orderedItems" in j.fields
      && DecodeOrderedItems(j.fields["orderedItems"]).Ok?
    ensures !j.JObject? ==> r == Err(NotAnObject)
    ensures j.JObject? && "id" !in j.fields ==> r == Err(MissingField("id"))
    ensures j.JObject? && "id" in j.fields && "type" !in j.fields ==> r == Err(MissingField("type"))
    ensures j.JObject? && "id" in j.fields && "type" in j.fields
            && j.fields["type"] != JString(PageTypeName)
            ==> r == Err(BadTypeTag(j.fields["type"]))
    ensures j.JObject? && "id" in j.fields && "type" in j.fields
            && j.fields["type"] == JString(PageTypeName) ==>
      && ("startIndex" !in j.fields ==> r == Err(MissingField("startIndex")))
      && ("startIndex" in j.fields && "partOf" !in j.fields ==> r == Err(MissingField("partOf")))
      && ("startIndex" in j.fields && "partOf" in j.fields && "orderedItems" !in j.fields
          ==> r == Err(MissingField("orderedItems")))
      && ("startIndex" in j.fields && "partOf" in j.fields && "orderedItems" in j.fields
          && DecodeOrderedItems(j.fields["orderedItems"]).Err?
          ==> r == Err(DecodeOrderedItems(j.fields["orderedItems"]).error))
    ensures r.Ok? ==>
      && r.value.id == j.fields["id"]
      && r.value.startIndex == j.fields["startIndex"]
      && r.value.partOf == j.fields["partOf"]
      && r.value.prev == Attr(j.fields, "prev")
      && r.value.next == Attr(j.fields, "next")
      && Ok(r.value.items) == DecodeOrderedItems(j.fields["orderedItems"])
  {
    if !j.JObject? then Err(NotAnObject)
    else
      var d := j.fields;
      if "id" !in d then Err(MissingField("id"))
      else if "type" !in d then Err(MissingField("type"))
      else
        match ParsePageType(d["type"])
        case None => Err(BadTypeTag(d["type"]))
        case Some(ptype) =>
          if "startIndex" !in d then Err(MissingField("startIndex"))
          else if "partOf" !in d then Err(MissingField("partOf"))
          else
            var prev := if "prev" in d then d["prev"] else JNull;
            var next := if "next" in d then d["next"] else JNull;
            if "orderedItems" !in d then Err(MissingField("orderedItems"))
            else
              match DecodeOrderedItems(d["orderedItems"])
              case Err(e) => Err(e)
              case Ok(items) =>
                Ok(OrderedCollectionPage(d["id"], ptype, d["startIndex"], d["partOf"], items, prev, next))
  }

  /** Keys other than the seven a page knows play no part in decoding it. */
  lemma PageReadsOnlyItsKeys(m: map<string, Json>, m': map<string, Json>)
    requires AgreeOn(m, m', PageKeys)
    ensures DecodePage(JObject(m)) == DecodePage(JObject(m'))
  {
  }

  /** For an `orderedItems` array, the page's items are the elements decoded
      one by one, same length, same order; one bad element fails the page. */
  lemma PageItemsFollowOrderedItems(j: Json, xs: seq<Json>)
    requires j.JObject? && "orderedItems" in j.fields && j.fields["orderedItems"] == JArray(xs)
    ensures DecodePage(j).Ok? ==>
      |DecodePage(j).value.items| == |xs|
      && forall i :: 0 <= i < |xs| ==> DecodeActivity(xs[i]) == Ok(DecodePage(j).value.items[i])
    ensures (exists i :: 0 <= i < |xs| && DecodeActivity(xs[i]).Err?) ==> DecodePage(j).Err?
  {
  }

  function EncodeItems(items: seq<Activity>): (xs: seq<Json>)
    ensures |xs| == |items|
  {
    if items == [] then [] else [EncodeActivity(items[0])] + EncodeItems(items[1..])
  }

  lemma {:induction false} ItemsRoundTrip(items: seq<Activity>)
    ensures DecodeItems(EncodeItems(items)) == Ok(items)
  {
    if items != [] {
      ActivityRoundTrip(items[0]);
      ItemsRoundTrip(items[1..]);
      assert EncodeItems(items)[1..] == EncodeItems(items[1..]);
      assert [items[0]] + items[1..] == items;
    }
  }

  /** The inverse of DecodePage. */
  function EncodePage(p: OrderedCollectionPage): Json {
    var m := map["id" := p.id, "type" := JString(PageTypeName),
                 "startIndex" := p.startIndex, "partOf" := p.partOf,
                 "orderedItems" := JArray(EncodeItems(p.items))];
    var m := With(m, "prev", p.prev);
    JObject(With(m, "next", p.next))
  }

  /** Where the required fields of a page land in its encoding. */
  lemma PageEncodingRequired(p: OrderedCollectionPage)
    ensures var m := EncodePage(p).fields;
      && "id" in m && m["id"] == p.id
      && "type" in m && m["type"] == JString(PageTypeName)
      && "startIndex" in m && m["startIndex"] == p.startIndex
      && "partOf" in m && m["partOf"] == p.partOf
      && "orderedItems" in m && m["orderedItems"] == JArray(EncodeItems(p.items))
  {
    var m0 := map["id" := p.id, "type" := JString(PageTypeName),
                  "startIndex" := p.startIndex, "partOf" := p.partOf,
                  "orderedItems" := JArray(EncodeItems(p.items))];
    var m1 := With(m0, "prev", p.prev);
    assert EncodePage(p).fields == With(m1, "next", p.next);
  }

  /** Where the links of a page land in its encoding. */
  lemma PageEncodingLinks(p: OrderedCollectionPage)
    ensures var m := EncodePage(p).fields;
      Attr(m, "prev") == p.prev && Attr(m, "next") == p.next
  {
    var m0 := map["id" := p.id, "type" := JString(PageTypeName),
                  "startIndex" := p.startIndex, "partOf" := p.partOf,
                  "orderedItems" := JArray(EncodeItems(p.items))];
    var m1 := With(m0, "prev", p.prev);
    assert EncodePage(p).fields == With(m1, "next", p.next);
  }

  lemma PageRoundTrip(p: OrderedCollectionPage)
    ensures DecodePage(EncodePage(p)) == Ok(p)
  {
    PageEncodingRequired(p);
    PageEncodingLinks(p);
    ItemsRoundTrip(p.items);
    var m := EncodePage(p).fields;
    assert DecodeOrderedItems(m["orderedItems"]) == Ok(p.items);
    var r := DecodePage(EncodePage(p));
    assert r.Ok?;
    assert r.value.ptype == p.ptype;
  }

  /** `activities()`: yields the stored items, one by one, in stored order. */
  method Activities(page: OrderedCollectionPage) returns (yielded: seq<Activity>)
    ensures yielded == page.items
  {
    yielded := [];
    for i := 0 to |page.items|
      invariant yielded == page.items[..i]
    {
      yielded := yielded + [page.items[i]];
    }
  }

  // ---------------------------------------------------------------------
  // OrderedCollection
  // ---------------------------------------------------------------------

  /** `OrderedCollection(obj)` on the already parsed document: `id`,
      `@context`, `last` and `type` (which must be "OrderedCollection") are
      required, in that order; `first` is set only when present; `totalItems`
      is None when absent. No page is fetched here. */
  function DecodeCollection(j: Json): (r: Result<OrderedCollection>)
    ensures r.Ok? <==>
      && j.JObject? && "id" in j.fields && "@context" in j.fields && "last" in j.fields
      && "type" in j.fields && j.fields["type"] == JString(CollectionTypeName)
    ensures !j.JObject? ==> r == Err(NotAnObject)
    ensures j.JObject? && "id" !in j.fields ==> r == Err(MissingField("id"))
    ensures j.JObject? && "id" in j.fields && "@context" !in j.fields
            ==> r == Err(MissingField("@context"))
    ensures j.JObject? && "id" in j.fields && "@context" in j.fields && "last" !in j.fields
            ==> r == Err(MissingField("last"))
    ensures j.JObject? && "id" in j.fields && "@context" in j.fields && "last" in j.fields
            && "type" !in j.fields
            ==> r == Err(MissingField("type"))
    ensures j.JObject? && "id" in j.fields && "@context" in j.fields && "last" in j.fields
            && "type" in j.fields && j.fields["type"] != JString(CollectionTypeName)
            ==> r == Err(BadTypeTag(j.fields["type"]))
    ensures r.Ok? ==>
      && r.value.id == j.fields["id"]
      && r.value.context == j.fields["@context"]
      && r.value.last == j.fields["last"]
      && (r.value.first.Some? <==> "first" in j.fields)
      && (r.value.first.Some? ==> r.value.first.value == j.fields["first"])
      && r.value.totalItems == Attr(j.fields, "totalItems")
  {
    if !j.JObject? then Err(NotAnObject)
    else
      var d := j.fields;
      if "id" !in d then Err(MissingField("id"))
      else if "@context" !in d then Err(MissingField("@context"))
      else
        var first := if "first" in d then Some(d["first"]) else None;
        if "last" !in d then Err(MissingField("last"))
        else if "type" !in d then Err(MissingField("type"))
        else
          match ParseCollectionType(d["type"])
          case None => Err(BadTypeTag(d["type"]))
          case Some(ctype) =>
            var totalItems := if "totalItems" in d then d["totalItems"] else JNull;
            Ok(OrderedCollection(d["id"], d["@context"], ctype, d["last"], first, totalItems))
  }

  /** Keys other than the six a collection knows play no part in decoding it. */
  lemma CollectionReadsOnlyItsKeys(m: map<string, Json>, m': map<string, Json>)
    requires AgreeOn(m, m', CollectionKeys)
    ensures DecodeCollection(JObject(m)) == DecodeCollection(JObject(m'))
  {
  }

  /** The inverse of DecodeCollection. */
  function EncodeCollection(c: OrderedCollection): Json {
    var m := map["id" := c.id, "@context" := c.context, "last" := c.last,
                 "type" := JString(CollectionTypeName)];
    var m := if c.first.Some? then m["first" := c.first.value] else m;
    JObject(With(m, "totalItems", c.totalItems))
  }

  lemma CollectionRoundTrip(c: OrderedCollection)
    ensures DecodeCollection(EncodeCollection(c)) == Ok(c)
  {
    var m := EncodeCollection(c).fields;
    assert "first" in m <==> c.first.Some?;
    var r := DecodeCollection(EncodeCollection(c));
    assert r.Ok?;
    assert r.value.ctype == c.ctype;
    assert r.value.first == c.first;
  }
}
