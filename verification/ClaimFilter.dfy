/** The stored form of job requirements and the claim query that reads it.  The query
    must select by the same rule as the in-process matcher. */
module ClaimFilter {
  import opened Contracts
  import opened Scheduling

  datatype Json = Null | Num(n: int) | Str(s: string) | Arr(items: seq<Json>) | Obj(fields: map<string, Json>)

  // ------------------------------------------------------- sorted string lists

  /** Strings compare by code point, first difference first. */
  predicate AtMost(a: string, b: string) {
    a == "" || (b != "" && (a[0] < b[0] || (a[0] == b[0] && AtMost(a[1..], b[1..]))))
  }

  lemma {:induction false} AtMostTotal(a: string, b: string)
    ensures AtMost(a, b) || AtMost(b, a)
    ensures AtMost(a, b) && AtMost(b, a) ==> a == b
    decreases |a|
  {
    if a != "" && b != "" && a[0] == b[0] {
      AtMostTotal(a[1..], b[1..]);
      assert a == [a[0]] + a[1..] && b == [b[0]] + b[1..];
    }
  }

  lemma {:induction false} AtMostTransitive(a: string, b: string, c: string)
    requires AtMost(a, b) && AtMost(b, c)
    ensures AtMost(a, c)
    decreases |a|
  {
    if a != "" && a[0] == b[0] && b[0] == c[0] { AtMostTransitive(a[1..], b[1..], c[1..]); }
  }

  ghost predicate IsLeast(m: string, s: set<string>) {
    m in s && forall x :: x in s ==> AtMost(m, x)
  }

  lemma {:induction false} HasLeast(s: set<string>)
    requires s != {}
    ensures exists m :: IsLeast(m, s)
    decreases s
  {
    var x :| x in s;
    AtMostTotal(x, x);
    if s == {x} {
      assert IsLeast(x, s);
    } else {
      HasLeast(s - {x});
      var m :| IsLeast(m, s - {x});
      AtMostTotal(x, m);
      if AtMost(x, m) {
        forall y | y in s ensures AtMost(x, y) {
          if y != x { AtMostTransitive(x, m, y); }
        }
        assert IsLeast(x, s);
      } else {
        assert IsLeast(m, s);
      }
    }
  }

  /** `sorted` of a set of strings. */
  ghost function Sorted(s: set<string>): (r: seq<string>)
    ensures forall x :: x in r <==> x in s
    decreases s
  {
    if s == {} then [] else
      HasLeast(s);
      var m :| IsLeast(m, s);
      assert forall x :: x in s <==> x == m || x in s - {m};
      [m] + Sorted(s - {m})
  }

  predicate Ascends(list: seq<string>) {
    forall i, k :: 0 <= i < k < |list| ==> AtMost(list[i], list[k])
  }

  lemma LeastFirst(m: string, rest: seq<string>)
    requires Ascends(rest) && forall x :: x in rest ==> AtMost(m, x)
    ensures Ascends([m] + rest)
  {
    hide AtMost;
  }

  lemma SortedUnfolds(s: set<string>) returns (m: string)
    requires s != {}
    ensures IsLeast(m, s) && Sorted(s) == [m] + Sorted(s - {m})
  {
    hide AtMost;
    HasLeast(s);
    m :| IsLeast(m, s) && Sorted(s) == [m] + Sorted(s - {m});
  }

  /** The list is ascending and repeats nothing. */
  lemma {:induction false} SortedAscends(s: set<string>)
    ensures |Sorted(s)| == |s|
    ensures Ascends(Sorted(s))
    decreases s
  {
    if s != {} {
      var m := SortedUnfolds(s);
      hide Sorted, AtMost, Ascends;
      SortedAscends(s - {m});
      LeastFirst(m, Sorted(s - {m}));
    }
  }

  function Strings(values: seq<string>): Json {
    Arr(seq(|values|, i requires 0 <= i < |values| => Str(values[i])))
  }

  // ------------------------------------------------------------- stored form

  /** The seven keys of a stored requirement object. */
  datatype Field =
    ClassField | CapabilitiesField | LabelsField | GpuUuidsField | GpuCountField | TotalVramField | SingleGpuVramField

  ghost function RequirementsToDict(r: JobRequirements): map<Field, Json> {
    map[ClassField := if r.workerClass.Some? then Str(r.workerClass.value) else Null,
        CapabilitiesField := Strings(Sorted(r.requiredCapabilities)),
        LabelsField := Labels(r.requiredLabels),
        GpuUuidsField := Strings(Sorted(r.requiredGpuUuids)),
        GpuCountField := Num(r.minGpuCount),
        TotalVramField := Num(r.minTotalVramMb),
        SingleGpuVramField := Num(r.minSingleGpuVramMb)]
  }

  function Get(d: map<Field, Json>, k: Field): Json {
    if k in d then d[k] else Null
  }

  predicate IsText(v: Json) { v.Str? }

  /** A list of texts as a set; absent or null is the empty list, anything else raises. */
  function TextSet(v: Json): Option<set<string>> {
    if v.Null? then Some({})
    else if v.Arr? && forall i :: 0 <= i < |v.items| ==> IsText(v.items[i]) then
      Some(set i | 0 <= i < |v.items| && IsText(v.items[i]) :: v.items[i].s)
    else None
  }

  function TextMap(v: Json): Option<map<string, string>> {
    if v.Null? then Some(map[])
    else if v.Obj? && forall k :: k in v.fields ==> IsText(v.fields[k]) then
      Some(map k | k in v.fields && IsText(v.fields[k]) :: v.fields[k].s)
    else None
  }

  function Count(v: Json): Option<int> {
    if v.Null? then Some(0) else if v.Num? then Some(v.n) else None
  }

  /** Rebuild requirements from their stored form; `None` when the original raises. */
  function RequirementsFromDict(d: map<Field, Json>): Option<JobRequirements> {
    var cls := Get(d, ClassField);
    var caps, labels, gpus := TextSet(Get(d, CapabilitiesField)), TextMap(Get(d, LabelsField)), TextSet(Get(d, GpuUuidsField));
    var a, b, c := Count(Get(d, GpuCountField)), Count(Get(d, TotalVramField)), Count(Get(d, SingleGpuVramField));
    if (cls.Null? || cls.Str?) && caps.Some? && labels.Some? && gpus.Some? && a.Some? && b.Some? && c.Some? then
      var r := JobRequirements(if cls.Str? then Some(cls.s) else None, caps.value, labels.value, gpus.value, a.value, b.value, c.value);
      if r.Valid() then Some(r) else None
    else None
  }

  lemma TextSetOfStrings(s: set<string>)
    ensures TextSet(Strings(Sorted(s))) == Some(s)
  {
    var v := Strings(Sorted(s));
    var t := TextSet(v).value;
    forall x ensures x in t <==> x in s {
      if x in s {
        var i :| 0 <= i < |Sorted(s)| && Sorted(s)[i] == x;
        assert v.items[i] == Str(x) && IsText(v.items[i]);
      }
    }
    assert t == s;
  }

  function Labels(m: map<string, string>): Json {
    Obj(map k | k in m :: Str(m[k]))
  }

  lemma TextMapOfLabels(m: map<string, string>)
    ensures TextMap(Labels(m)) == Some(m)
  {
    var v := Labels(m);
    assert forall k :: k in m ==> k in v.fields && IsText(v.fields[k]);
    assert TextMap(v).value == m;
  }

  /** What each key of the stored form holds. */
  lemma StoredFields(r: JobRequirements)
    ensures var d := RequirementsToDict(r);
      && Get(d, ClassField) == (if r.workerClass.Some? then Str(r.workerClass.value) else Null)
      && Get(d, CapabilitiesField) == Strings(Sorted(r.requiredCapabilities))
      && Get(d, LabelsField) == Labels(r.requiredLabels)
      && Get(d, GpuUuidsField) == Strings(Sorted(r.requiredGpuUuids))
      && Get(d, GpuCountField) == Num(r.minGpuCount)
      && Get(d, TotalVramField) == Num(r.minTotalVramMb)
      && Get(d, SingleGpuVramField) == Num(r.minSingleGpuVramMb)
  {
  }

  /** Storing and reading requirements back loses nothing. */
  lemma RequirementsRoundTrip(r: JobRequirements)
    requires r.Valid()
    ensures RequirementsFromDict(RequirementsToDict(r)) == Some(r)
  {
    StoredFields(r);
    TextSetOfStrings(r.requiredCapabilities);
    TextSetOfStrings(r.requiredGpuUuids);
    TextMapOfLabels(r.requiredLabels);
  }

  // ---------------------------------------------------------------- the query

  /** Value of an SQL expression that may raise instead. */
  datatype Sql<T> = Raised | Value(v: T)

  const MAX_INTEGER := 2147483647
  const MIN_INTEGER := -2147483648

  /** `COALESCE((field)::integer, 0)`: the cast raises outside 32 bits. */
  function CastInteger(v: Json): Sql<int> {
    if v.Null? then Value(0)
    else if v.Num? && MIN_INTEGER <= v.n <= MAX_INTEGER then Value(v.n)
    else Raised
  }

  /** `array ? text`: the JSON array has that string as an element. */
  predicate Has(v: Json, text: string) {
    v.Arr? && Str(text) in v.items
  }

  /** No element of the stored list is missing from the worker's list. */
  predicate AllPresent(stored: Json, have: Json) {
    stored.Null? || (stored.Arr? && forall i :: 0 <= i < |stored.items| ==> stored.items[i].Str? && Has(have, stored.items[i].s))
  }

  /** `stored <@ have` on objects: every field is there with an equal value. */
  predicate Contained(stored: Json, have: Json) {
    stored.Null? || (stored.Obj? && have.Obj? && forall k :: k in stored.fields ==> k in have.fields && have.fields[k] == stored.fields[k])
  }

  /** The eligibility conjuncts of the claim query.  SQL fixes no order of evaluation, so
      a raising cast anywhere counts as the query raising. */
  ghost function Filter(stored: map<Field, Json>, capability: string, worker: WorkerSpec): Sql<bool> {
    var caps := Strings(Sorted(worker.capabilities));
    var labels := Labels(worker.labels);
    var uuids := Strings(worker.gpuUuids);
    var a, b, c := CastInteger(Get(stored, GpuCountField)), CastInteger(Get(stored, TotalVramField)), CastInteger(Get(stored, SingleGpuVramField));
    if a.Raised? || b.Raised? || c.Raised? then Raised else Value(
      && Has(caps, capability)
      && (Get(stored, ClassField).Null? || Get(stored, ClassField) == Str(worker.workerClass))
      && AllPresent(Get(stored, CapabilitiesField), caps)
      && Contained(Get(stored, LabelsField), labels)
      && AllPresent(Get(stored, GpuUuidsField), uuids)
      && worker.resources.gpuCount >= a.v
      && worker.resources.totalVramMb >= b.v
      && worker.resources.maxSingleGpuVramMb >= c.v)
  }

  lemma HasString(values: seq<string>, x: string)
    ensures Has(Strings(values), x) <==> x in values
  {
    var v := Strings(values);
    if x in values {
      var i :| 0 <= i < |values| && values[i] == x;
      assert v.items[i] == Str(x);
    }
    if Has(v, x) {
      var i :| 0 <= i < |v.items| && v.items[i] == Str(x);
      assert values[i] == x;
    }
  }

  lemma PresentIsSubset(need: set<string>, have: seq<string>)
    ensures AllPresent(Strings(Sorted(need)), Strings(have)) <==> forall x :: x in need ==> x in have
  {
    var list, stored, w := Sorted(need), Strings(Sorted(need)), Strings(have);
    if AllPresent(stored, w) {
      forall x | x in need ensures x in have {
        var i :| 0 <= i < |list| && list[i] == x;
        assert stored.items[i] == Str(x);
        HasString(have, x);
      }
    }
    if forall x :: x in need ==> x in have {
      forall i | 0 <= i < |stored.items| ensures stored.items[i].Str? && Has(w, stored.items[i].s) {
        assert list[i] in need;
        HasString(have, list[i]);
      }
    }
  }

  lemma ContainedIsMatch(need: map<string, string>, have: map<string, string>)
    ensures Contained(Labels(need), Labels(have)) <==> LabelsMatch(have, need)
  {
    var stored, labels := Labels(need), Labels(have);
    if Contained(stored, labels) {
      forall k | k in need ensures k in have && have[k] == need[k] {
        assert k in stored.fields && stored.fields[k] == Str(need[k]);
      }
    }
  }

  /** The three minima fit the 32-bit cast of the query. */
  predicate FitsInteger(r: JobRequirements) {
    r.minGpuCount <= MAX_INTEGER && r.minTotalVramMb <= MAX_INTEGER && r.minSingleGpuVramMb <= MAX_INTEGER
  }

  /** For every stored requirement the query accepts exactly when the capability is
      advertised and the matcher accepts, provided the minima fit 32 bits; when one does
      not, the query cannot be evaluated although the submission was accepted. */
  lemma FilterAgreesWithMatcher(r: JobRequirements, capability: string, worker: WorkerSpec)
    requires r.Valid()
    ensures Filter(RequirementsToDict(r), capability, worker) ==
            if FitsInteger(r) then Value(capability in worker.capabilities && WorkerMatches(worker, r)) else Raised
  {
    StoredFields(r);
    HasString(Sorted(worker.capabilities), capability);
    PresentIsSubset(r.requiredCapabilities, Sorted(worker.capabilities));
    PresentIsSubset(r.requiredGpuUuids, worker.gpuUuids);
    ContainedIsMatch(r.requiredLabels, worker.labels);
    SameSubset(r.requiredCapabilities, Sorted(worker.capabilities), worker.capabilities);
    SameSubset(r.requiredGpuUuids, worker.gpuUuids, Gpus(worker));
  }

  const WIDE := JobRequirements(None, {}, map[], {}, MAX_INTEGER + 1, 0, 0)

  /** A requirement submissions accept, and over which the query raises for every worker. */
  lemma WideMinimumRaises(sub: JobSubmission, worker: WorkerSpec)
    requires sub.Valid()
    ensures sub.(requirements := WIDE).Valid()
    ensures Filter(RequirementsToDict(WIDE), sub.capability, worker) == Raised
  {
    hide Filter, RequirementsToDict;
    FilterAgreesWithMatcher(WIDE, sub.capability, worker);
  }

  lemma SameSubset(need: set<string>, list: seq<string>, have: set<string>)
    requires forall x :: x in list <==> x in have
    ensures (forall x :: x in need ==> x in list) <==> need <= have
  {
  }
}
