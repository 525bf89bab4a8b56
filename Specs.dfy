/** The sortable specification table of src/pages/Specs.tsx: the fixed rows, the
    sort configuration a header click toggles, the comparator, and the sort of a
    fresh copy of the rows. Rendering is not modelled. */
module Specs {
  import opened Json

  datatype SpecKey = Id | Name | Value | Unit | Description
  datatype Direction = Asc | Desc
  datatype SortConfig = SortConfig(key: SpecKey, direction: Direction)

  /** A table row. Every row's `value` is a string, so values compare as strings. */
  datatype TechSpec = TechSpec(id: int, name: string, value: string, unit: string, description: string)

  /** `techSpecs`. */
  const TechSpecs: seq<TechSpec> := [
    TechSpec(1, "量子计算核心", "128", "位", "基于超导量子比特技术"),
    TechSpec(2, "内存容量", "128", "TB", "全息存储技术"),
    TechSpec(3, "处理速度", "1.2", "PHz", "峰值计算性能"),
    TechSpec(4, "能耗比", "95", "TOPS/W", "每瓦特算力"),
    TechSpec(5, "接口带宽", "800", "Gbps", "多维度连接端口")
  ]

  /** The configuration the page starts with. */
  const InitialSortConfig: SortConfig := SortConfig(Id, Asc)

  /** The column headers, the only places a click can request a sort. */
  const SortableHeaders: seq<SpecKey> := [Name, Value, Unit, Description]

  /** JavaScript's `<` on strings: lexicographic, a proper prefix coming first. */
  predicate StrLess(a: string, b: string)
    ensures StrLess(a, b) ==> a != b
    ensures |a| < |b| && a == b[..|a|] ==> StrLess(a, b)
  {
    if |a| == 0 then |b| > 0
    else if |b| == 0 then false
    else if a[0] != b[0] then a[0] < b[0]
    else StrLess(a[1..], b[1..])
  }

  lemma {:induction false} StrLessAsymmetric(a: string, b: string)
    ensures StrLess(a, b) ==> !StrLess(b, a)
  {
    if |a| > 0 && |b| > 0 && a[0] == b[0] {
      StrLessAsymmetric(a[1..], b[1..]);
    }
  }

  /** Sorting by value is lexicographic, not numeric. */
  lemma ValuesCompareAsText()
    ensures StrLess("1.2", "128") && StrLess("128", "800") && StrLess("800", "95")
  {
  }

  /** `a[key] < b[key]`. */
  predicate KeyLess(key: SpecKey, a: TechSpec, b: TechSpec) {
    match key
    case Id => a.id < b.id
    case Name => StrLess(a.name, b.name)
    case Value => StrLess(a.value, b.value)
    case Unit => StrLess(a.unit, b.unit)
    case Description => StrLess(a.description, b.description)
  }

  lemma KeyLessAsymmetric(key: SpecKey, a: TechSpec, b: TechSpec)
    ensures KeyLess(key, a, b) ==> !KeyLess(key, b, a)
  {
    match key
    case Id =>
    case Name => StrLessAsymmetric(a.name, b.name);
    case Value => StrLessAsymmetric(a.value, b.value);
    case Unit => StrLessAsymmetric(a.unit, b.unit);
    case Description => StrLessAsymmetric(a.description, b.description);
  }

  /** The comparator handed to `sort`: negative when `a` goes first. */
  function Compare(cfg: SortConfig, a: TechSpec, b: TechSpec): (c: int)
    ensures -1 <= c <= 1
    ensures c == 0 <==> !KeyLess(cfg.key, a, b) && !KeyLess(cfg.key, b, a)
    ensures cfg.direction == Asc ==> (c < 0 <==> KeyLess(cfg.key, a, b))
    ensures cfg.direction == Desc ==> (c < 0 <==> KeyLess(cfg.key, b, a))
  {
    KeyLessAsymmetric(cfg.key, a, b);
    if KeyLess(cfg.key, a, b) then (if cfg.direction == Asc then -1 else 1)
    else if KeyLess(cfg.key, b, a) then (if cfg.direction == Asc then 1 else -1)
    else 0
  }

  /** The comparator is antisymmetric. */
  lemma CompareAntisymmetric(cfg: SortConfig, a: TechSpec, b: TechSpec)
    ensures Compare(cfg, a, b) == -Compare(cfg, b, a)
  {
    KeyLessAsymmetric(cfg.key, a, b);
    KeyLessAsymmetric(cfg.key, b, a);
  }

  /** Adjacent rows are in the order the comparator asks for. */
  predicate SortedBy(cfg: SortConfig, s: seq<TechSpec>) {
    forall m :: 0 <= m < |s| - 1 ==> Compare(cfg, s[m], s[m + 1]) <= 0
  }

  /** In ascending order no row's key is below its predecessor's; in descending
      order none is above it. */
  lemma SortedByKeyOrder(cfg: SortConfig, s: seq<TechSpec>, m: nat)
    requires SortedBy(cfg, s) && m < |s| - 1
    ensures cfg.direction == Asc ==> !KeyLess(cfg.key, s[m + 1], s[m])
    ensures cfg.direction == Desc ==> !KeyLess(cfg.key, s[m], s[m + 1])
  {
    assert Compare(cfg, s[m], s[m + 1]) <= 0;
    KeyLessAsymmetric(cfg.key, s[m], s[m + 1]);
  }

  /** Exchanges `a[j - 1]` and `a[j]`. */
  method SwapDown(a: array<TechSpec>, j: int)
    requires 0 < j < a.Length
    modifies a
    ensures a[..] == old(a[..])[j - 1 := old(a[j])][j := old(a[j - 1])]
    ensures multiset(a[..]) == old(multiset(a[..]))
  {
    a[j - 1], a[j] := a[j], a[j - 1];
  }

  /** Moves `a[i]` down into the sorted prefix `a[..i]`, so that `a[..i + 1]` is sorted. */
  method InsertDown(a: array<TechSpec>, i: int, cfg: SortConfig)
    requires 0 < i < a.Length
    requires forall m :: 0 <= m < i - 1 ==> Compare(cfg, a[m], a[m + 1]) <= 0
    modifies a
    ensures forall m :: 0 <= m < i ==> Compare(cfg, a[m], a[m + 1]) <= 0
    ensures multiset(a[..]) == old(multiset(a[..]))
  {
    var j := i;
    while j > 0 && Compare(cfg, a[j - 1], a[j]) > 0
      invariant 0 <= j <= i
      invariant forall m :: 0 <= m < j - 1 ==> Compare(cfg, a[m], a[m + 1]) <= 0
      invariant forall m :: j <= m < i ==> Compare(cfg, a[m], a[m + 1]) <= 0
      invariant 0 < j < i ==> Compare(cfg, a[j - 1], a[j + 1]) <= 0
      invariant multiset(a[..]) == old(multiset(a[..]))
    {
      CompareAntisymmetric(cfg, a[j - 1], a[j]);
      SwapDown(a, j);
      j := j - 1;
    }
  }

  /** Sorts `a` in place with the comparator (an insertion sort). */
  method SortInPlace(a: array<TechSpec>, cfg: SortConfig)
    modifies a
    ensures SortedBy(cfg, a[..])
    ensures multiset(a[..]) == old(multiset(a[..]))
  {
    if a.Length == 0 {
      return;
    }
    var i := 1;
    while i < a.Length
      invariant 1 <= i <= a.Length
      invariant forall m :: 0 <= m < i - 1 ==> Compare(cfg, a[m], a[m + 1]) <= 0
      invariant multiset(a[..]) == old(multiset(a[..]))
    {
      InsertDown(a, i, cfg);
      i := i + 1;
    }
  }

  /** `[...techSpecs].sort(comparator)`: a fresh copy, sorted; the rows themselves
      are a constant and stay as they are. */
  method SortedSpecs(cfg: SortConfig) returns (r: seq<TechSpec>)
    ensures SortedBy(cfg, r)
    ensures multiset(r) == multiset(TechSpecs)
  {
    var a := new TechSpec[|TechSpecs|](k requires 0 <= k < |TechSpecs| => TechSpecs[k]);
    assert a[..] == TechSpecs;
    SortInPlace(a, cfg);
    r := a[..];
  }

  /** The configuration after a click on the header for `key`. */
  function NextSortConfig(cfg: SortConfig, key: SpecKey): (r: SortConfig)
    ensures r.key == key
    ensures r.direction == Desc <==> cfg.key == key && cfg.direction == Asc
  {
    SortConfig(key, if cfg.key == key && cfg.direction == Asc then Desc else Asc)
  }

  /** Two clicks on the current key's header restore the configuration. */
  lemma RequestSortTwiceRestores(cfg: SortConfig)
    ensures NextSortConfig(NextSortConfig(cfg, cfg.key), cfg.key) == cfg
  {
  }

  /** The configuration after a series of header clicks. */
  function AfterClicks(cfg: SortConfig, clicks: seq<SpecKey>): SortConfig
    decreases |clicks|
  {
    if clicks == [] then cfg else AfterClicks(NextSortConfig(cfg, clicks[0]), clicks[1..])
  }

  /** After any clicks the key is the last one clicked. */
  lemma {:induction false} AfterClicksKey(cfg: SortConfig, clicks: seq<SpecKey>)
    requires clicks != []
    ensures AfterClicks(cfg, clicks).key == clicks[|clicks| - 1]
    decreases |clicks|
  {
    if |clicks| > 1 {
      AfterClicksKey(NextSortConfig(cfg, clicks[0]), clicks[1..]);
    }
  }

  /** Since no header sorts by id, the initial configuration is left at the first
      click and never comes back. */
  lemma HeaderClicksLeaveIdForGood(clicks: seq<SpecKey>)
    requires clicks != []
    requires forall m :: 0 <= m < |clicks| ==> clicks[m] in SortableHeaders
    ensures AfterClicks(InitialSortConfig, clicks).key != Id
    ensures AfterClicks(InitialSortConfig, clicks) != InitialSortConfig
  {
    AfterClicksKey(InitialSortConfig, clicks);
    assert clicks[|clicks| - 1] in SortableHeaders;
  }

  /** `getSortIndicator(key)`: nothing unless `key` is the current key, else the arrow's direction. */
  function SortIndicator(cfg: SortConfig, key: SpecKey): (r: Option<Direction>)
    ensures r.None? <==> key != cfg.key
    ensures r.Some? ==> r.value == cfg.direction
  {
    if cfg.key != key then None else Some(cfg.direction)
  }

  /** The page's state: the sort configuration. */
  class SpecsPage {
    var sortConfig: SortConfig

    constructor ()
      ensures sortConfig == InitialSortConfig
    {
      sortConfig := InitialSortConfig;
    }

    /** `requestSort(key)`. */
    method RequestSort(key: SpecKey)
      modifies this
      ensures sortConfig == NextSortConfig(old(sortConfig), key)
    {
      var direction := Asc;
      if sortConfig.key == key && sortConfig.direction == Asc {
        direction := Desc;
      }
      sortConfig := SortConfig(key, direction);
    }
  }
}
