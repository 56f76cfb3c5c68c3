/**
 * The client-side table engine (`useTable`): search, then filter, then sort,
 * then paginate, over rows that are dynamic records, plus the small state
 * machine (search query, filters, sort field and order, page and page size)
 * that the table screens drive.
 */
module UseTable {
  import opened Js

  /** One row of a table: a record read by key, as `item[key]` reads it. */
  type Row = map<string, JsVal>

  /** `new Date(text)`: how the browser parses a date string; `None` is an Invalid Date. */
  type DateParser = string -> Option<int>

  // ---------------------------------------------------------------- search

  /** The thirteen values the free-text search looks at, in order. */
  function SearchableFields(item: Row): (r: seq<JsVal>)
    ensures |r| == 13
  {
    var tenant := Field(item, "tenant");
    var house := Field(item, "house");
    [ Get(tenant, "firstName"), Get(tenant, "lastName"), Get(tenant, "email"),
      Get(house, "houseNumber"), Get(Get(house, "apartment"), "name"),
      Field(item, "paymentMethod"), Field(item, "status"), Field(item, "receiptNumber"),
      Field(item, "transactionId"), Field(item, "referenceNumber"), Field(item, "month"),
      Field(item, "year"), Field(item, "notes") ]
  }

  /** `.filter(Boolean).map(v => String(v).toLowerCase())` */
  function TextsOf(fields: seq<JsVal>): seq<string> {
    var present := Where(fields, Truthy);
    seq(|present|, i requires 0 <= i < |present| => Lower(ToStr(present[i])))
  }

  /** The searchable fields as lowercase text. */
  function SearchTexts(item: Row): seq<string> {
    TextsOf(SearchableFields(item))
  }

  /** `.some(field => field.includes(query))` */
  predicate SearchHit(item: Row, query: string) {
    var texts := SearchTexts(item);
    exists i :: 0 <= i < |texts| && Contains(texts[i], query)
  }

  /** The search callback for a lowercased query. */
  function Hits(query: string): Row -> bool {
    item => SearchHit(item, query)
  }

  /** The search step: a blank query keeps everything, otherwise the lowercased (untrimmed) query must occur. */
  function ApplySearch(data: seq<Row>, searchQuery: string): seq<Row> {
    if IsBlank(searchQuery) then data else Where(data, Hits(Lower(searchQuery)))
  }

  /** Direct reading of the search rule: some present field, as lowercase text, contains `query`. */
  predicate SomeFieldContains(item: Row, query: string) {
    exists v :: v in SearchableFields(item) && Truthy(v) && Contains(Lower(ToStr(v)), query)
  }

  lemma SearchHitIff(item: Row, query: string)
    ensures SearchHit(item, query) <==> SomeFieldContains(item, query)
  {
    var fields := SearchableFields(item);
    TextsContain(fields, query);
  }

  /** Some text of `fields` contains `query` exactly when some present field does, as lowercase text. */
  lemma TextsContain(fields: seq<JsVal>, query: string)
    ensures (exists i :: 0 <= i < |TextsOf(fields)| && Contains(TextsOf(fields)[i], query)) <==>
            (exists v :: v in fields && Truthy(v) && Contains(Lower(ToStr(v)), query))
  {
    var present := Where(fields, Truthy);
    var texts := TextsOf(fields);
    if i :| 0 <= i < |texts| && Contains(texts[i], query) {
      WhereMembership(fields, Truthy, present[i]);
      assert Contains(Lower(ToStr(present[i])), query);
    }
    if v :| v in fields && Truthy(v) && Contains(Lower(ToStr(v)), query) {
      WhereMembership(fields, Truthy, v);
      var i :| 0 <= i < |present| && present[i] == v;
      assert texts[i] == Lower(ToStr(v));
    }
  }

  lemma BlankSearchKeepsAll(data: seq<Row>, searchQuery: string)
    requires IsBlank(searchQuery)
    ensures ApplySearch(data, searchQuery) == data
  {
  }

  /** A non-blank query keeps exactly the rows one of whose fields contains the lowercased query. */
  lemma SearchMembership(data: seq<Row>, searchQuery: string, item: Row)
    requires !IsBlank(searchQuery)
    ensures item in ApplySearch(data, searchQuery) <==>
              item in data && SomeFieldContains(item, Lower(searchQuery))
  {
    var query := Lower(searchQuery);
    WhereMembership(data, Hits(query), item);
    SearchHitIff(item, query);
  }

  // ---------------------------------------------------------------- filters

  /** `new Date(v)`, as a time value; `None` is an Invalid Date. */
  function ToDate(v: JsVal, parse: DateParser): Option<int> {
    match v
    case Undef => None
    case Null => Some(0)
    case Bool(b) => Some(if b then 1 else 0)
    case Num(n) => Some(n)
    case Str(s) => parse(s)
    case Obj(_) => None
  }

  /** `d1 >= d2` on two dates: false when either is invalid. */
  predicate DateGe(d1: Option<int>, d2: Option<int>) {
    d1.Some? && d2.Some? && d1.value >= d2.value
  }

  /** The amount a range filter looks at: `item.paidAmount || item.amount || 0`. */
  function AmountOf(item: Row): JsVal {
    Or(Or(Field(item, "paidAmount"), Field(item, "amount")), Num(0))
  }

  /** Whether one active filter `key = fv` keeps `item`. */
  predicate Keep(key: string, fv: JsVal, item: Row, parse: DateParser) {
    var value := Field(item, key);
    if Contains(key, "Date") && Contains(key, "Start") then
      DateGe(ToDate(value, parse), ToDate(fv, parse))
    else if Contains(key, "Date") && Contains(key, "End") then
      DateGe(ToDate(fv, parse), ToDate(value, parse))
    else if Contains(key, "amountMin") then
      Ge(AmountOf(item), fv)
    else if Contains(key, "amountMax") then
      Le(AmountOf(item), fv)
    else if value.Obj? then
      if Truthy(Get(value, "_id")) then StrictEq(Get(value, "_id"), fv)
      else if Truthy(Get(value, "status")) then StrictEq(Get(value, "status"), fv)
      else false
    else
      Lower(ToStr(value)) == Lower(ToStr(fv))
  }

  /** `item` passes every active filter whose key is in `keys`. */
  predicate PassesFilters(filters: map<string, JsVal>, keys: set<string>, item: Row, parse: DateParser) {
    forall k :: k in keys && k in filters && !IsEmptyValue(filters[k]) ==> Keep(k, filters[k], item, parse)
  }

  /** The filter callback for the active keys among `keys`. */
  function Passing(filters: map<string, JsVal>, keys: set<string>, parse: DateParser): Row -> bool {
    item => PassesFilters(filters, keys, item, parse)
  }

  /** The filter callback for one active key. */
  function Keeping(key: string, fv: JsVal, parse: DateParser): Row -> bool {
    item => Keep(key, fv, item, parse)
  }

  /** `filteredData`: the search step followed by every active filter. */
  function FilteredData(data: seq<Row>, searchQuery: string, filters: map<string, JsVal>, parse: DateParser): seq<Row> {
    Where(ApplySearch(data, searchQuery), Passing(filters, filters.Keys, parse))
  }

  /** One more active key is one more `filter` pass. */
  lemma {:induction false} FilterStep(s: seq<Row>, filters: map<string, JsVal>, done: set<string>, key: string, parse: DateParser)
    requires key in filters && !IsEmptyValue(filters[key])
    ensures Where(Where(s, Passing(filters, done, parse)), Keeping(key, filters[key], parse))
              == Where(s, Passing(filters, done + {key}, parse))
  {
    if s != [] {
      FilterStep(s[1..], filters, done, key, parse);
    }
  }

  /** An empty-valued key adds no pass. */
  lemma {:induction false} FilterSkip(s: seq<Row>, filters: map<string, JsVal>, done: set<string>, key: string, parse: DateParser)
    requires key in filters && IsEmptyValue(filters[key])
    ensures Where(s, Passing(filters, done, parse)) == Where(s, Passing(filters, done + {key}, parse))
  {
    if s != [] {
      FilterSkip(s[1..], filters, done, key, parse);
    }
  }

  /** The filter step as the hook runs it: one `filter` pass per active key. */
  method FilterData(data: seq<Row>, searchQuery: string, filters: map<string, JsVal>, parse: DateParser)
    returns (result: seq<Row>)
    ensures result == FilteredData(data, searchQuery, filters, parse)
  {
    result := ApplySearch(data, searchQuery);
    ghost var searched := result;
    var remaining := filters.Keys;
    ghost var done: set<string> := {};
    WhereAll(searched, Passing(filters, {}, parse));
    while remaining != {}
      invariant remaining + done == filters.Keys && remaining !! done
      invariant result == Where(searched, Passing(filters, done, parse))
      decreases remaining
    {
      var key :| key in remaining;
      var fv := filters[key];
      if !IsEmptyValue(fv) {
        result := Where(result, Keeping(key, fv, parse));
        FilterStep(searched, filters, done, key, parse);
      } else {
        FilterSkip(searched, filters, done, key, parse);
      }
      done := done + {key};
      remaining := remaining - {key};
    }
    assert done == filters.Keys;
  }

  /** Filtering only removes rows: the result is an order-preserving subsequence of the data. */
  lemma FilteredIsSubseq(data: seq<Row>, searchQuery: string, filters: map<string, JsVal>, parse: DateParser)
    ensures IsSubseq(FilteredData(data, searchQuery, filters, parse), data)
  {
    var keep := Passing(filters, filters.Keys, parse);
    if IsBlank(searchQuery) {
      WhereIsSubseq(data, keep);
    } else {
      var searched := ApplySearch(data, searchQuery);
      WhereIsSubseq(data, Hits(Lower(searchQuery)));
      WhereIsSubseq(searched, keep);
      SubseqTrans(Where(searched, keep), searched, data);
    }
  }

  /** A row survives exactly when it passes the search and every active filter. */
  lemma FilteredMembership(data: seq<Row>, searchQuery: string, filters: map<string, JsVal>, parse: DateParser, item: Row)
    ensures item in FilteredData(data, searchQuery, filters, parse) <==>
              item in data &&
              (IsBlank(searchQuery) || SomeFieldContains(item, Lower(searchQuery))) &&
              (forall k :: k in filters && !IsEmptyValue(filters[k]) ==> Keep(k, filters[k], item, parse))
  {
    var searched := ApplySearch(data, searchQuery);
    WhereMembership(searched, Passing(filters, filters.Keys, parse), item);
    if !IsBlank(searchQuery) {
      SearchMembership(data, searchQuery, item);
    }
  }

  lemma EmptyKeyPasses(filters: map<string, JsVal>, key: string, v: JsVal, item: Row, parse: DateParser)
    requires IsEmptyValue(v)
    ensures PassesFilters(filters[key := v], filters[key := v].Keys, item, parse) <==>
              PassesFilters(filters - {key}, (filters - {key}).Keys, item, parse)
  {
    var f1, f2 := filters[key := v], filters - {key};
    if PassesFilters(f2, f2.Keys, item, parse) {
      forall k | k in f1.Keys && k in f1 && !IsEmptyValue(f1[k])
        ensures Keep(k, f1[k], item, parse)
      {
        assert k != key && k in f2 && f2[k] == f1[k];
      }
    }
    if PassesFilters(f1, f1.Keys, item, parse) {
      forall k | k in f2.Keys && k in f2 && !IsEmptyValue(f2[k])
        ensures Keep(k, f2[k], item, parse)
      {
        assert k in f1 && f2[k] == f1[k];
      }
    }
  }

  /** A key set to '', null or undefined filters nothing: it is as if the key were absent. */
  lemma EmptyFilterIgnored(data: seq<Row>, searchQuery: string, filters: map<string, JsVal>, key: string, v: JsVal, parse: DateParser)
    requires IsEmptyValue(v)
    ensures FilteredData(data, searchQuery, filters[key := v], parse) == FilteredData(data, searchQuery, filters - {key}, parse)
  {
    var f1, f2 := filters[key := v], filters - {key};
    var searched := ApplySearch(data, searchQuery);
    forall i | 0 <= i < |searched|
      ensures Passing(f1, f1.Keys, parse)(searched[i]) <==> Passing(f2, f2.Keys, parse)(searched[i])
    {
      EmptyKeyPasses(filters, key, v, searched[i], parse);
    }
    WhereSame(searched, Passing(f1, f1.Keys, parse), Passing(f2, f2.Keys, parse));
  }

  /** With no active filter, the filter step keeps exactly the search result. */
  lemma NoActiveFilters(data: seq<Row>, searchQuery: string, filters: map<string, JsVal>, parse: DateParser)
    requires forall k :: k in filters ==> IsEmptyValue(filters[k])
    ensures FilteredData(data, searchQuery, filters, parse) == ApplySearch(data, searchQuery)
  {
    WhereAll(ApplySearch(data, searchQuery), Passing(filters, filters.Keys, parse));
  }

  /** A 'Date' key naming 'Start' keeps the items dated on or after the bound. */
  lemma StartDateFilter(key: string, fv: JsVal, item: Row, parse: DateParser)
    requires Contains(key, "Date") && Contains(key, "Start")
    ensures Keep(key, fv, item, parse) <==>
              exists d, b :: ToDate(Field(item, key), parse) == Some(d) && ToDate(fv, parse) == Some(b) && d >= b
  {
    if Keep(key, fv, item, parse) {
      var d, b := ToDate(Field(item, key), parse).value, ToDate(fv, parse).value;
      assert ToDate(Field(item, key), parse) == Some(d) && ToDate(fv, parse) == Some(b) && d >= b;
    }
  }

  /** A 'Date' key naming 'End' but not 'Start' keeps the items dated on or before the bound. */
  lemma EndDateFilter(key: string, fv: JsVal, item: Row, parse: DateParser)
    requires Contains(key, "Date") && Contains(key, "End") && !Contains(key, "Start")
    ensures Keep(key, fv, item, parse) <==>
              exists d, b :: ToDate(Field(item, key), parse) == Some(d) && ToDate(fv, parse) == Some(b) && d <= b
  {
    if Keep(key, fv, item, parse) {
      var d, b := ToDate(Field(item, key), parse).value, ToDate(fv, parse).value;
      assert ToDate(Field(item, key), parse) == Some(d) && ToDate(fv, parse) == Some(b) && d <= b;
    }
  }

  lemma {:induction false} NotContainsFirst(key: string, sub: string)
    requires sub != [] && sub[0] !in key
    ensures !Contains(key, sub)
    decreases |key|
  {
    if key != [] {
      assert key[0] != sub[0];
      NotContainsFirst(key[1..], sub);
    }
  }

  lemma {:induction false} ContainsLength(s: string, sub: string)
    requires Contains(s, sub)
    ensures |sub| <= |s| && (|sub| == |s| ==> s == sub)
    decreases |s|
  {
    if !IsPrefix(sub, s) {
      ContainsLength(s[1..], sub);
    }
  }

  /**
   * The substring tests are case-sensitive: a key such as 'startDate' has no
   * capital 'S', so it is compared as text, never as a date range.
   */
  lemma LowerStartKeyIsEquality(fv: JsVal, item: Row, parse: DateParser)
    requires !Field(item, "startDate").Obj?
    ensures Keep("startDate", fv, item, parse) <==>
              Lower(ToStr(Field(item, "startDate"))) == Lower(ToStr(fv))
  {
    NotContainsFirst("startDate", "Start");
    NotContainsFirst("startDate", "End");
    if Contains("startDate", "amountMin") { ContainsLength("startDate", "amountMin"); }
    if Contains("startDate", "amountMax") { ContainsLength("startDate", "amountMax"); }
  }

  /** `amountMin` keeps the items whose paid-or-billed amount is at least the bound. */
  lemma AmountMinFilter(item: Row, bound: int, paid: int, amount: int, parse: DateParser)
    requires Field(item, "paidAmount") == Num(paid) && Field(item, "amount") == Num(amount)
    ensures Keep("amountMin", Num(bound), item, parse) <==>
              (if paid != 0 then paid else amount) >= bound
  {
    assert IsPrefix("amountMin", "amountMin");
    NotContainsFirst("amountMin", "Date");
  }

  /** `amountMax` keeps the items whose paid-or-billed amount is at most the bound. */
  lemma AmountMaxFilter(item: Row, bound: int, paid: int, amount: int, parse: DateParser)
    requires Field(item, "paidAmount") == Num(paid) && Field(item, "amount") == Num(amount)
    ensures Keep("amountMax", Num(bound), item, parse) <==>
              (if paid != 0 then paid else amount) <= bound
  {
    assert IsPrefix("amountMax", "amountMax");
    NotContainsFirst("amountMax", "Date");
    if Contains("amountMax", "amountMin") { ContainsLength("amountMax", "amountMin"); }
  }

  /** An object-valued field matches by `_id` when it has one, else by `status`, else never. */
  lemma ObjectFilter(key: string, fv: JsVal, item: Row, parse: DateParser)
    requires !Contains(key, "Date") && !Contains(key, "amountMin") && !Contains(key, "amountMax")
    requires Field(item, key).Obj?
    ensures var value := Field(item, key);
            Keep(key, fv, item, parse) <==>
              (Truthy(Get(value, "_id")) && Get(value, "_id") == fv && !fv.Obj?) ||
              (!Truthy(Get(value, "_id")) && Truthy(Get(value, "status")) && Get(value, "status") == fv && !fv.Obj?)
  {
  }

  /** A scalar field matches by case-insensitive equality of the two values as text. */
  lemma ScalarFilter(key: string, fv: JsVal, item: Row, parse: DateParser)
    requires !Contains(key, "Date") && !Contains(key, "amountMin") && !Contains(key, "amountMax")
    requires !Field(item, key).Obj?
    ensures Keep(key, fv, item, parse) <==> Lower(ToStr(Field(item, key))) == Lower(ToStr(fv))
  {
  }

  // ---------------------------------------------------------------- sort

  /** The sort value of a field: an object stands for its first present name-like field. */
  function Coerce(v: JsVal): (r: JsVal)
    ensures !v.Obj? ==> r == v
  {
    if v.Obj? then
      Or(Get(v, "houseNumber"), Or(Get(v, "name"), Or(Get(v, "firstName"),
        Or(Get(v, "paidAmount"), Or(Get(v, "amount"), Str(""))))))
    else v
  }

  /** The value compared for `field`, after the object and `amount` adjustments. */
  function SortValue(row: Row, sortField: string): JsVal {
    var v := Coerce(Field(row, sortField));
    if sortField == "amount" then Or(v, Num(0)) else v
  }

  /** A comparison key: a plain value, or a time value once both sides became dates. */
  datatype SortKey = Plain(v: JsVal) | Time(t: Option<int>)

  predicate KeyLt(a: SortKey, b: SortKey) {
    match (a, b)
    case (Plain(x), Plain(y)) => Lt(x, y)
    case (Time(x), Time(y)) => x.Some? && y.Some? && x.value < y.value
    case _ => false
  }

  /** A string holding a 'T' is taken for an ISO timestamp. */
  predicate LooksLikeDate(v: JsVal) {
    v.Str? && Contains(v.s, "T")
  }

  /** The comparator handed to `Array.prototype.sort`. */
  function Compare(a: Row, b: Row, sortField: string, sortOrder: string, parse: DateParser): (r: int)
    ensures -1 <= r <= 1
  {
    var av, bv := SortValue(a, sortField), SortValue(b, sortField);
    var ka := if LooksLikeDate(av) then Time(ToDate(av, parse)) else Plain(av);
    var kb := if LooksLikeDate(av) then Time(ToDate(bv, parse)) else Plain(bv);
    if KeyLt(ka, kb) then (if sortOrder == "asc" then -1 else 1)
    else if KeyLt(kb, ka) then (if sortOrder == "asc" then 1 else -1)
    else 0
  }

  type Comparator = (Row, Row) -> int

  /** Insert `x` before the first element it does not compare above; stable for earlier `x`. */
  function Insert(x: Row, s: seq<Row>, cmp: Comparator): seq<Row> {
    if s == [] then [x]
    else if cmp(x, s[0]) <= 0 then [x] + s
    else [s[0]] + Insert(x, s[1..], cmp)
  }

  /** The order a stable sort with `cmp` produces. */
  function SortBy(s: seq<Row>, cmp: Comparator): seq<Row> {
    if s == [] then [] else Insert(s[0], SortBy(s[1..], cmp), cmp)
  }

  /** The comparator as a function value. */
  function Comparing(sortField: string, sortOrder: string, parse: DateParser): Comparator {
    (a, b) => Compare(a, b, sortField, sortOrder, parse)
  }

  /** `sortedData` */
  function SortedData(filtered: seq<Row>, sortField: Option<string>, sortOrder: string, parse: DateParser): seq<Row> {
    if sortField.None? || sortField.value == "" then filtered
    else SortBy(filtered, Comparing(sortField.value, sortOrder, parse))
  }

  lemma {:induction false} InsertPermutes(x: Row, s: seq<Row>, cmp: Comparator)
    ensures multiset(Insert(x, s, cmp)) == multiset(s) + multiset{x}
  {
    if s != [] && cmp(x, s[0]) > 0 {
      InsertPermutes(x, s[1..], cmp);
      assert s == [s[0]] + s[1..];
    }
  }

  lemma {:induction false} SortPermutes(s: seq<Row>, cmp: Comparator)
    ensures multiset(SortBy(s, cmp)) == multiset(s)
  {
    if s != [] {
      SortPermutes(s[1..], cmp);
      InsertPermutes(s[0], SortBy(s[1..], cmp), cmp);
      assert s == [s[0]] + s[1..];
    }
  }

  /** `sortedData` is a permutation of `filteredData`; with no sort field it is `filteredData` itself. */
  lemma SortedIsPermutation(filtered: seq<Row>, sortField: Option<string>, sortOrder: string, parse: DateParser)
    ensures multiset(SortedData(filtered, sortField, sortOrder, parse)) == multiset(filtered)
    ensures |SortedData(filtered, sortField, sortOrder, parse)| == |filtered|
    ensures sortField.None? || sortField.value == "" ==> SortedData(filtered, sortField, sortOrder, parse) == filtered
  {
    var r := SortedData(filtered, sortField, sortOrder, parse);
    if !(sortField.None? || sortField.value == "") {
      SortPermutes(filtered, Comparing(sortField.value, sortOrder, parse));
    }
    assert |multiset(r)| == |r| && |multiset(filtered)| == |filtered|;
  }

  lemma KeyLtIrreflexive(k: SortKey)
    ensures !KeyLt(k, k)
  {
    if k.Plain? { LtAsymmetric(k.v, k.v); }
  }

  /** Two rows with the same field value compare equal, so a stable sort keeps them in order. */
  lemma CompareTies(a: Row, b: Row, sortField: string, sortOrder: string, parse: DateParser)
    requires Field(a, sortField) == Field(b, sortField)
    ensures Compare(a, b, sortField, sortOrder, parse) == 0
  {
    var av := SortValue(a, sortField);
    assert SortValue(b, sortField) == av;
    var k := if LooksLikeDate(av) then Time(ToDate(av, parse)) else Plain(av);
    KeyLtIrreflexive(k);
  }

  /** The 'desc' comparator is the 'asc' one negated, so descending order is ascending order reversed. */
  lemma CompareDescNegatesAsc(a: Row, b: Row, sortField: string, parse: DateParser)
    ensures Compare(a, b, sortField, "desc", parse) == -Compare(a, b, sortField, "asc", parse)
  {
  }

  /** A comparator that never ranks two elements of `s` above each other both ways. */
  predicate Asymmetric(s: seq<Row>, cmp: Comparator) {
    forall a, b :: a in s && b in s && cmp(a, b) > 0 ==> cmp(b, a) <= 0
  }

  /** Consecutive elements are in `cmp` order. */
  predicate SortedBy(s: seq<Row>, cmp: Comparator) {
    forall i :: 0 <= i < |s| - 1 ==> cmp(s[i], s[i + 1]) <= 0
  }

  lemma SortedTail(s: seq<Row>, cmp: Comparator)
    requires s != [] && SortedBy(s, cmp)
    ensures SortedBy(s[1..], cmp)
  {
    var t := s[1..];
    forall i | 0 <= i < |t| - 1 ensures cmp(t[i], t[i + 1]) <= 0 {
      assert t[i] == s[i + 1] && t[i + 1] == s[i + 2];
    }
  }

  lemma SortedCons(h: Row, r: seq<Row>, cmp: Comparator)
    requires SortedBy(r, cmp) && (r != [] ==> cmp(h, r[0]) <= 0)
    ensures SortedBy([h] + r, cmp)
  {
    var q := [h] + r;
    forall i | 0 <= i < |q| - 1 ensures cmp(q[i], q[i + 1]) <= 0 {
      if i > 0 { assert q[i] == r[i - 1] && q[i + 1] == r[i]; }
    }
  }

  lemma {:induction false} InsertSorted(x: Row, s: seq<Row>, cmp: Comparator, all: seq<Row>)
    requires SortedBy(s, cmp) && Asymmetric(all, cmp)
    requires x in all && forall y :: y in s ==> y in all
    ensures SortedBy(Insert(x, s, cmp), cmp)
    ensures Insert(x, s, cmp) != [] && (Insert(x, s, cmp)[0] == x || (s != [] && Insert(x, s, cmp)[0] == s[0]))
  {
    if s == [] {
    } else if cmp(x, s[0]) <= 0 {
      SortedCons(x, s, cmp);
    } else {
      var t := s[1..];
      SortedTail(s, cmp);
      assert forall y :: y in t ==> y in s;
      InsertSorted(x, t, cmp, all);
      var r := Insert(x, t, cmp);
      assert s[0] in all;
      assert cmp(s[0], r[0]) <= 0 by {
        if r[0] != x { assert r[0] == t[0] == s[1]; }
      }
      SortedCons(s[0], r, cmp);
    }
  }

  lemma {:induction false} SortSorted(s: seq<Row>, cmp: Comparator, all: seq<Row>)
    requires Asymmetric(all, cmp) && forall y :: y in s ==> y in all
    ensures SortedBy(SortBy(s, cmp), cmp)
  {
    if s != [] {
      SortSorted(s[1..], cmp, all);
      SortPermutes(s[1..], cmp);
      forall y | y in SortBy(s[1..], cmp) ensures y in all {
        assert y in multiset(SortBy(s[1..], cmp));
        assert y in s[1..];
      }
      InsertSorted(s[0], SortBy(s[1..], cmp), cmp, all);
    }
  }

  /** Every row's sort value is a plain value, never a string taken for a date. */
  predicate NoDateKeys(s: seq<Row>, sortField: string) {
    forall row :: row in s ==> !LooksLikeDate(SortValue(row, sortField))
  }

  /** Every row's sort value is a string taken for a date. */
  predicate AllDateKeys(s: seq<Row>, sortField: string) {
    forall row :: row in s ==> LooksLikeDate(SortValue(row, sortField))
  }

  /** On plain values, or on all-date values, the comparator is consistent. */
  lemma CompareAsymmetric(s: seq<Row>, sortField: string, sortOrder: string, parse: DateParser)
    requires NoDateKeys(s, sortField) || AllDateKeys(s, sortField)
    ensures Asymmetric(s, Comparing(sortField, sortOrder, parse))
  {
    forall a, b | a in s && b in s
      ensures Compare(a, b, sortField, sortOrder, parse) > 0 ==> Compare(b, a, sortField, sortOrder, parse) <= 0
    {
      LtAsymmetric(SortValue(a, sortField), SortValue(b, sortField));
    }
  }

  /**
   * When no sort value is taken for a date (or all are), `sortedData` is in
   * comparator order: ascending for 'asc', the reverse for any other order.
   */
  lemma SortedInOrder(filtered: seq<Row>, sortField: string, sortOrder: string, parse: DateParser)
    requires sortField != ""
    requires NoDateKeys(filtered, sortField) || AllDateKeys(filtered, sortField)
    ensures SortedBy(SortedData(filtered, Some(sortField), sortOrder, parse), Comparing(sortField, sortOrder, parse))
  {
    var cmp := Comparing(sortField, sortOrder, parse);
    CompareAsymmetric(filtered, sortField, sortOrder, parse);
    SortSorted(filtered, cmp, filtered);
  }

  /** The number in a row's sort field (0 when it holds something else). */
  function KeyNum(row: Row, sortField: string): int {
    if Field(row, sortField).Num? then Field(row, sortField).n else 0
  }

  lemma NumericPair(a: Row, b: Row, sortField: string, sortOrder: string, parse: DateParser)
    requires Field(a, sortField).Num? && Field(b, sortField).Num?
    requires Compare(a, b, sortField, sortOrder, parse) <= 0
    ensures sortOrder == "asc" ==> KeyNum(a, sortField) <= KeyNum(b, sortField)
    ensures sortOrder != "asc" ==> KeyNum(a, sortField) >= KeyNum(b, sortField)
  {
    NumericComparison(KeyNum(a, sortField), KeyNum(b, sortField));
    NumericComparison(KeyNum(b, sortField), KeyNum(a, sortField));
  }

  lemma SortedMembers(s: seq<Row>, cmp: Comparator, x: Row)
    requires x in SortBy(s, cmp)
    ensures x in s
  {
    SortPermutes(s, cmp);
    assert x in multiset(SortBy(s, cmp));
  }

  /** Sorting on a numeric column orders the numbers: ascending for 'asc', descending for 'desc'. */
  lemma NumericSort(filtered: seq<Row>, sortField: string, sortOrder: string, parse: DateParser)
    requires sortField != ""
    requires forall row :: row in filtered ==> Field(row, sortField).Num?
    ensures var r := SortedData(filtered, Some(sortField), sortOrder, parse);
            forall i :: 0 <= i < |r| - 1 ==>
              (sortOrder == "asc" ==> KeyNum(r[i], sortField) <= KeyNum(r[i + 1], sortField)) &&
              (sortOrder != "asc" ==> KeyNum(r[i], sortField) >= KeyNum(r[i + 1], sortField))
  {
    var cmp := Comparing(sortField, sortOrder, parse);
    var r := SortBy(filtered, cmp);
    assert NoDateKeys(filtered, sortField);
    SortedInOrder(filtered, sortField, sortOrder, parse);
    forall i | 0 <= i < |r| - 1
      ensures (sortOrder == "asc" ==> KeyNum(r[i], sortField) <= KeyNum(r[i + 1], sortField)) &&
              (sortOrder != "asc" ==> KeyNum(r[i], sortField) >= KeyNum(r[i + 1], sortField))
    {
      SortedMembers(filtered, cmp, r[i]);
      SortedMembers(filtered, cmp, r[i + 1]);
      assert cmp(r[i], r[i + 1]) <= 0;
      NumericPair(r[i], r[i + 1], sortField, sortOrder, parse);
    }
  }

  /** When every pair of elements ties, the stable sort leaves the order alone. */
  lemma {:induction false} SortKeepsTies(s: seq<Row>, cmp: Comparator)
    requires forall i, j :: 0 <= i < j < |s| ==> cmp(s[i], s[j]) == 0
    ensures SortBy(s, cmp) == s
  {
    if s != [] {
      SortKeepsTies(s[1..], cmp);
      if |s| > 1 { assert cmp(s[0], s[1]) == 0; }
      assert [s[0]] + s[1..] == s;
    }
  }

  // ---------------------------------------------------------------- pagination

  /** `paginatedData`: `sortedData.slice((p - 1) * s, (p - 1) * s + s)`. */
  function PaginatedData(sorted: seq<Row>, currentPage: int, pageSize: int): seq<Row> {
    var startIndex := (currentPage - 1) * pageSize;
    Slice(sorted, startIndex, startIndex + pageSize)
  }

  /** `Math.ceil(n / pageSize)` for a positive page size. */
  function TotalPages(n: nat, pageSize: int): (r: nat)
    requires pageSize > 0
    ensures r * pageSize >= n
    ensures r > 0 ==> (r - 1) * pageSize < n
  {
    (n + pageSize - 1) / pageSize
  }

  lemma PageBounds(currentPage: int, pageSize: int)
    requires currentPage >= 1 && pageSize >= 1
    ensures (currentPage - 1) * pageSize >= 0
    ensures (currentPage - 1) * pageSize + pageSize == currentPage * pageSize
  {
  }

  /** Page `p` holds rows `[(p-1)·s, p·s)`, clipped to the data, and never more than `s` of them. */
  lemma PageIsSlice(sorted: seq<Row>, currentPage: int, pageSize: int)
    requires currentPage >= 1 && pageSize >= 1
    ensures var from := Min((currentPage - 1) * pageSize, |sorted|);
            var to := Min(currentPage * pageSize, |sorted|);
            PaginatedData(sorted, currentPage, pageSize) == sorted[from..to]
    ensures |PaginatedData(sorted, currentPage, pageSize)| <= pageSize
  {
    PageBounds(currentPage, pageSize);
  }

  lemma DivMod(i: nat, pageSize: int)
    requires pageSize >= 1
    ensures i / pageSize >= 0 && i % pageSize < pageSize
    ensures (i / pageSize) * pageSize <= i < (i / pageSize + 1) * pageSize
    ensures i - (i / pageSize) * pageSize == i % pageSize
  {
  }

  /** Row `i` is shown on page `i / s + 1`, at position `i % s`. */
  lemma RowOnPage(sorted: seq<Row>, pageSize: int, i: nat)
    requires pageSize >= 1 && i < |sorted|
    ensures var page := PaginatedData(sorted, i / pageSize + 1, pageSize);
            i % pageSize < |page| && page[i % pageSize] == sorted[i]
  {
    var p := i / pageSize + 1;
    DivMod(i, pageSize);
    PageIsSlice(sorted, p, pageSize);
    assert (p - 1) * pageSize == (i / pageSize) * pageSize;
  }

  /** Pages `1..k` one after the other. */
  function PagesUpTo(sorted: seq<Row>, pageSize: int, k: nat): seq<Row> {
    if k == 0 then [] else PagesUpTo(sorted, pageSize, k - 1) + PaginatedData(sorted, k, pageSize)
  }

  lemma PagesUpToPrefix(sorted: seq<Row>, pageSize: int, k: nat)
    requires pageSize >= 1
    ensures PagesUpTo(sorted, pageSize, k) == sorted[..Min(k * pageSize, |sorted|)]
  {
    PagesUpToEnd(sorted, pageSize, k, k * pageSize);
  }

  /** `PagesUpToPrefix` with the product `k · pageSize` named `end`, so the induction stays linear. */
  lemma {:induction false} PagesUpToEnd(sorted: seq<Row>, pageSize: int, k: nat, end: int)
    requires pageSize >= 1 && end == k * pageSize
    ensures PagesUpTo(sorted, pageSize, k) == sorted[..Min(end, |sorted|)]
  {
    if k > 0 {
      var start := end - pageSize;
      PreviousPageStart(k, pageSize, end);
      PagesUpToEnd(sorted, pageSize, k - 1, start);
      var a, b := Min(start, |sorted|), Min(end, |sorted|);
      assert PaginatedData(sorted, k, pageSize) == Slice(sorted, start, end);
      assert Slice(sorted, start, end) == sorted[a..b];
      PrefixThenSlice(sorted, a, b);
    }
  }

  lemma PreviousPageStart(k: int, pageSize: int, end: int)
    requires k >= 1 && pageSize >= 1 && end == k * pageSize
    ensures (k - 1) * pageSize == end - pageSize >= 0
  {
  }

  lemma PrefixThenSlice(s: seq<Row>, a: nat, b: nat)
    requires a <= b <= |s|
    ensures s[..a] + s[a..b] == s[..b]
  {
  }

  /** The pages `1..totalPages` partition `sortedData`: together they are exactly the rows, in order. */
  lemma PagesPartition(sorted: seq<Row>, pageSize: int)
    requires pageSize >= 1
    ensures PagesUpTo(sorted, pageSize, TotalPages(|sorted|, pageSize)) == sorted
  {
    PagesUpToPrefix(sorted, pageSize, TotalPages(|sorted|, pageSize));
  }

  // ---------------------------------------------------------------- state

  /** The hook's six pieces of state. */
  class TableState {
    var searchQuery: string
    var filters: map<string, JsVal>
    var sortField: Option<string>
    var sortOrder: string
    var currentPage: int
    var pageSize: int

    /** `useTable(data, { initialPageSize, initialSortField, initialSortOrder })` */
    constructor (initialPageSize: int, initialSortField: Option<string>, initialSortOrder: string)
      ensures searchQuery == "" && filters == map[]
      ensures sortField == initialSortField && sortOrder == initialSortOrder
      ensures currentPage == 1 && pageSize == initialPageSize
    {
      searchQuery := "";
      filters := map[];
      sortField := initialSortField;
      sortOrder := initialSortOrder;
      currentPage := 1;
      pageSize := initialPageSize;
    }

    /** `useTable(data)` with the default options: 25 rows, no sort field, ascending. */
    constructor Default()
      ensures searchQuery == "" && filters == map[]
      ensures sortField == None && sortOrder == "asc"
      ensures currentPage == 1 && pageSize == 25
    {
      searchQuery := "";
      filters := map[];
      sortField := None;
      sortOrder := "asc";
      currentPage := 1;
      pageSize := 25;
    }

    method SetSearchQuery(q: string)
      modifies this
      ensures searchQuery == q
      ensures filters == old(filters) && sortField == old(sortField) && sortOrder == old(sortOrder)
      ensures currentPage == old(currentPage) && pageSize == old(pageSize)
    {
      searchQuery := q;
    }

    /** Clicking a column header: the same column flips the order, a new one sorts ascending; back to page 1. */
    method HandleSort(field: string)
      modifies this
      ensures old(sortField) == Some(field) ==>
                sortField == old(sortField) && sortOrder == (if old(sortOrder) == "asc" then "desc" else "asc")
      ensures old(sortField) != Some(field) ==> sortField == Some(field) && sortOrder == "asc"
      ensures currentPage == 1
      ensures searchQuery == old(searchQuery) && filters == old(filters) && pageSize == old(pageSize)
    {
      if sortField == Some(field) {
        sortOrder := if sortOrder == "asc" then "desc" else "asc";
      } else {
        sortField := Some(field);
        sortOrder := "asc";
      }
      currentPage := 1;
    }

    /** Sets one filter key, leaving the others, and goes back to page 1. */
    method UpdateFilter(key: string, value: JsVal)
      modifies this
      ensures filters == old(filters)[key := value]
      ensures currentPage == 1
      ensures searchQuery == old(searchQuery) && sortField == old(sortField) && sortOrder == old(sortOrder)
      ensures pageSize == old(pageSize)
    {
      filters := filters[key := value];
      currentPage := 1;
    }

    /** Empties the filters and the search and goes back to page 1; sorting and page size stay. */
    method ClearFilters()
      modifies this
      ensures filters == map[] && searchQuery == "" && currentPage == 1
      ensures sortField == old(sortField) && sortOrder == old(sortOrder) && pageSize == old(pageSize)
    {
      filters := map[];
      searchQuery := "";
      currentPage := 1;
    }

    method SetCurrentPage(page: int)
      modifies this
      ensures currentPage == page
      ensures searchQuery == old(searchQuery) && filters == old(filters) && sortField == old(sortField)
      ensures sortOrder == old(sortOrder) && pageSize == old(pageSize)
    {
      currentPage := page;
    }

    method SetPageSize(size: int)
      modifies this
      ensures pageSize == size
      ensures searchQuery == old(searchQuery) && filters == old(filters) && sortField == old(sortField)
      ensures sortOrder == old(sortOrder) && currentPage == old(currentPage)
    {
      pageSize := size;
    }

    function Sorted(data: seq<Row>, parse: DateParser): seq<Row>
      reads this
    {
      SortedData(FilteredData(data, searchQuery, filters, parse), sortField, sortOrder, parse)
    }

    /** `totalItems`: the number of rows that pass search and filters. */
    function TotalItems(data: seq<Row>, parse: DateParser): (n: nat)
      reads this
      ensures n == |FilteredData(data, searchQuery, filters, parse)|
    {
      SortedIsPermutation(FilteredData(data, searchQuery, filters, parse), sortField, sortOrder, parse);
      |Sorted(data, parse)|
    }

    /** The rows on the current page. */
    method Paginated(data: seq<Row>, parse: DateParser) returns (page: seq<Row>)
      ensures page == PaginatedData(Sorted(data, parse), currentPage, pageSize)
      ensures currentPage >= 1 && pageSize >= 1 ==> |page| <= pageSize
    {
      var filtered := FilterData(data, searchQuery, filters, parse);
      var sorted := SortedData(filtered, sortField, sortOrder, parse);
      page := PaginatedData(sorted, currentPage, pageSize);
      if currentPage >= 1 && pageSize >= 1 {
        PageIsSlice(sorted, currentPage, pageSize);
      }
    }
  }
}
