/** Assembly of the COCO document from the populated elements
    (nodes/AnnotMaker.py). The document is a structured value; its JSON
    encoding is not modelled. */
module AnnotMaker {
  import opened Wrappers
  import opened Seqs
  import opened Elements

  // ------------------------------------------------- the name-to-ids dictionary

  /** One entry of the category dictionary: a name and the ids listed for it. */
  datatype Group = Group(name: string, ids: seq<int>)

  /** `zip(category_names, category_id)`: pairs up to the shorter of the two. */
  function Zip(names: seq<string>, ids: seq<int>): (r: seq<(string, int)>)
    ensures |r| == Min(|names|, |ids|)
    ensures forall i :: 0 <= i < |r| ==> r[i] == (names[i], ids[i])
  {
    seq(Min(|names|, |ids|), i requires 0 <= i < Min(|names|, |ids|) => (names[i], ids[i]))
  }

  function Keys(ps: seq<(string, int)>): (r: seq<string>)
    ensures |r| == |ps|
    ensures forall i :: 0 <= i < |ps| ==> r[i] == ps[i].0
  {
    seq(|ps|, i requires 0 <= i < |ps| => ps[i].0)
  }

  /** The id of pair `i`. */
  function IdAt(ps: seq<(string, int)>, i: nat): int
    requires i < |ps|
  {
    ps[i].1
  }

  function Names(d: seq<Group>): (r: seq<string>)
    ensures |r| == |d|
    ensures forall i :: 0 <= i < |d| ==> r[i] == d[i].name
  {
    seq(|d|, i requires 0 <= i < |d| => d[i].name)
  }

  predicate DistinctStrings(s: seq<string>) {
    forall i, j :: 0 <= i < j < |s| ==> s[i] != s[j]
  }

  /** Every name has at least one id, as in any dictionary built by appending. */
  predicate NonEmptyGroups(d: seq<Group>) {
    forall i :: 0 <= i < |d| ==> |d[i].ids| > 0
  }

  /** The position of the entry named `name`, if there is one. */
  function IndexOfName(d: seq<Group>, name: string): (r: Option<nat>)
    ensures r.None? ==> forall i :: 0 <= i < |d| ==> d[i].name != name
    ensures r.Some? ==> r.value < |d| && d[r.value].name == name &&
                        forall k :: 0 <= k < r.value ==> d[k].name != name
  {
    if |d| == 0 then None
    else if d[0].name == name then Some(0)
    else
      var rest := IndexOfName(d[1..], name);
      assert forall i :: 1 <= i < |d| ==> d[i] == d[1..][i - 1];
      if rest.None? then None else Some(rest.value + 1)
  }

  /** `category_dict[name].append(id_)` on a `defaultdict(list)` that keeps
      insertion order: extend the entry of `name`, or add one at the end. */
  function AddToGroup(d: seq<Group>, name: string, id: int): seq<Group> {
    match IndexOfName(d, name)
    case None => d + [Group(name, [id])]
    case Some(i) => d[i := d[i].(ids := d[i].ids + [id])]
  }

  /** The dictionary after appending every pair in order. */
  function Grouped(ps: seq<(string, int)>): seq<Group> {
    if |ps| == 0 then []
    else AddToGroup(Grouped(ps[..|ps| - 1]), ps[|ps| - 1].0, ps[|ps| - 1].1)
  }

  // Reference definitions the dictionary is proved against.

  /** The distinct names of `s` in order of first appearance. */
  function Dedup(s: seq<string>): seq<string> {
    if |s| == 0 then []
    else
      var p := Dedup(s[..|s| - 1]);
      if s[|s| - 1] in p then p else p + [s[|s| - 1]]
  }

  /** The ids paired with `name`, in zip order. */
  function IdsNamed(ps: seq<(string, int)>, name: string): seq<int> {
    if |ps| == 0 then []
    else IdsNamed(ps[..|ps| - 1], name) + (if ps[|ps| - 1].0 == name then [ps[|ps| - 1].1] else [])
  }

  /** The position of the first occurrence of `name`. */
  function FirstPos(s: seq<string>, name: string): (r: nat)
    requires name in s
    ensures r < |s| && s[r] == name
    ensures forall k :: 0 <= k < r ==> s[k] != name
  {
    if s[0] == name then 0 else 1 + FirstPos(s[1..], name)
  }

  lemma {:induction false} DedupMembers(s: seq<string>)
    ensures forall x :: x in Dedup(s) <==> x in s
    ensures DistinctStrings(Dedup(s))
  {
    if |s| > 0 {
      DedupMembers(s[..|s| - 1]);
      assert s == s[..|s| - 1] + [s[|s| - 1]];
    }
  }

  /** `Dedup` lists the names in the order in which they first occur. */
  lemma {:induction false} DedupOrder(s: seq<string>)
    ensures forall a, b :: 0 <= a < b < |Dedup(s)| ==>
      Dedup(s)[a] in s && Dedup(s)[b] in s &&
      FirstPos(s, Dedup(s)[a]) < FirstPos(s, Dedup(s)[b])
  {
    if |s| > 0 {
      var n := |s| - 1;
      var p := s[..n];
      var q := Dedup(p);
      DedupOrder(p);
      DedupMembers(p);
      forall x | x in p
        ensures x in s && FirstPos(s, x) == FirstPos(p, x)
      {
        FirstPosPrefix(p, s, x);
      }
      assert forall k :: 0 <= k < n ==> s[k] == p[k];
      if s[n] !in q {
        FirstPosAt(s, n);
        assert Dedup(s) == q + [s[n]];
      } else {
        assert Dedup(s) == q;
      }
      forall a, b | 0 <= a < b < |Dedup(s)|
        ensures Dedup(s)[a] in s && Dedup(s)[b] in s
        ensures FirstPos(s, Dedup(s)[a]) < FirstPos(s, Dedup(s)[b])
      {
        assert q[a] in p;
        if b < |q| {
          assert q[b] in p;
        }
      }
    } else {
      assert Dedup(s) == [];
    }
  }

  lemma FirstPosPrefix(p: seq<string>, s: seq<string>, x: string)
    requires p <= s && x in p
    ensures x in s && FirstPos(s, x) == FirstPos(p, x)
  {
    var f := FirstPos(p, x);
    var g := FirstPos(s, x);
    assert s[f] == x;
    assert forall k :: 0 <= k < |p| ==> s[k] == p[k];
  }

  lemma FirstPosAt(s: seq<string>, n: nat)
    requires n < |s| && forall k :: 0 <= k < n ==> s[k] != s[n]
    ensures FirstPos(s, s[n]) == n
  {
    var g := FirstPos(s, s[n]);
    assert !(g < n);
  }

  lemma {:induction false} IdsNamedMembers(ps: seq<(string, int)>, name: string, x: int)
    ensures x in IdsNamed(ps, name) <==> exists j :: 0 <= j < |ps| && ps[j] == (name, x)
  {
    if |ps| > 0 {
      var n := |ps| - 1;
      IdsNamedMembers(ps[..n], name, x);
      if exists j :: 0 <= j < |ps| && ps[j] == (name, x) {
        var j :| 0 <= j < |ps| && ps[j] == (name, x);
        if j < n {
          assert ps[..n][j] == (name, x);
        }
      }
    }
  }

  /** The first id listed for a name is the one paired with its first occurrence. */
  lemma {:induction false} IdsNamedHead(ps: seq<(string, int)>, j: nat)
    requires j < |ps| && forall k :: 0 <= k < j ==> ps[k].0 != ps[j].0
    ensures |IdsNamed(ps, ps[j].0)| > 0 && IdsNamed(ps, ps[j].0)[0] == ps[j].1
  {
    var n := |ps| - 1;
    var name := ps[j].0;
    if j < n {
      assert ps[..n][j] == ps[j];
      IdsNamedHead(ps[..n], j);
    } else {
      IdsNamedAbsent(ps[..n], name);
    }
  }

  lemma {:induction false} IdsNamedAbsent(ps: seq<(string, int)>, name: string)
    requires forall k :: 0 <= k < |ps| ==> ps[k].0 != name
    ensures IdsNamed(ps, name) == []
  {
    if |ps| > 0 {
      IdsNamedAbsent(ps[..|ps| - 1], name);
    }
  }

  /** Appending to the dictionary: an existing name keeps its place and gains
      the id at the end of its list; a new name gets a one-id entry at the end. */
  lemma AddToGroupEffect(d: seq<Group>, name: string, id: int)
    ensures Names(AddToGroup(d, name, id)) ==
      (if name in Names(d) then Names(d) else Names(d) + [name])
    ensures forall i :: 0 <= i < |d| && d[i].name != name ==> AddToGroup(d, name, id)[i] == d[i]
    ensures forall i :: 0 <= i < |d| && d[i].name == name && (forall k :: 0 <= k < i ==> d[k].name != name) ==>
      AddToGroup(d, name, id)[i] == d[i].(ids := d[i].ids + [id])
    ensures name !in Names(d) ==> AddToGroup(d, name, id)[|d|] == Group(name, [id])
  {
    var r := AddToGroup(d, name, id);
    match IndexOfName(d, name)
    case None =>
      assert name !in Names(d);
      assert Names(r) == Names(d) + [name];
    case Some(a) =>
      assert Names(d)[a] == name;
      assert Names(r) == Names(d);
      forall i | 0 <= i < |d| && d[i].name == name && (forall k :: 0 <= k < i ==> d[k].name != name)
        ensures i == a
      {
      }
  }

  /** `category_dict` maps each distinct name, in order of first appearance,
      to the ids paired with it in zip order. */
  lemma {:induction false} GroupedSpec(ps: seq<(string, int)>)
    ensures Names(Grouped(ps)) == Dedup(Keys(ps))
    ensures forall i :: 0 <= i < |Grouped(ps)| ==> Grouped(ps)[i].ids == IdsNamed(ps, Grouped(ps)[i].name)
  {
    if |ps| > 0 {
      var n := |ps| - 1;
      var p := ps[..n];
      GroupedSpec(p);
      assert ps == p + [(ps[n].0, ps[n].1)];
      AddToGroupSpec(Grouped(p), p, ps[n].0, ps[n].1);
    }
  }

  /** One append keeps the dictionary in step with its reference definitions. */
  lemma AddToGroupSpec(d: seq<Group>, p: seq<(string, int)>, name: string, id: int)
    requires Names(d) == Dedup(Keys(p))
    requires forall i :: 0 <= i < |d| ==> d[i].ids == IdsNamed(p, d[i].name)
    ensures Names(AddToGroup(d, name, id)) == Dedup(Keys(p + [(name, id)]))
    ensures forall i :: 0 <= i < |AddToGroup(d, name, id)| ==>
      AddToGroup(d, name, id)[i].ids == IdsNamed(p + [(name, id)], AddToGroup(d, name, id)[i].name)
  {
    var ps := p + [(name, id)];
    var r := AddToGroup(d, name, id);
    assert ps[..|p|] == p;
    assert Keys(ps)[..|p|] == Keys(p);
    DedupMembers(Keys(p));
    AddToGroupEffect(d, name, id);
    assert name in Names(d) <==> name in Keys(p);
    forall i | 0 <= i < |r|
      ensures r[i].ids == IdsNamed(ps, r[i].name)
    {
      if i < |d| {
        if d[i].name == name {
          forall k | 0 <= k < i ensures d[k].name != name {
            assert Names(d)[k] != Names(d)[i];
          }
        }
      } else {
        assert name !in Keys(p);
        IdsNamedAbsent(p, name);
      }
    }
  }

  /** Every entry of the dictionary built from `ps` is non-empty, its names are
      distinct, and its first id is the one paired with the name's first occurrence. */
  lemma GroupedFirstIds(ps: seq<(string, int)>)
    ensures NonEmptyGroups(Grouped(ps)) && DistinctStrings(Names(Grouped(ps)))
    ensures forall i :: 0 <= i < |Grouped(ps)| ==>
      Grouped(ps)[i].name in Keys(ps) &&
      Grouped(ps)[i].ids[0] == ps[FirstPos(Keys(ps), Grouped(ps)[i].name)].1
  {
    var d := Grouped(ps);
    GroupedSpec(ps);
    DedupMembers(Keys(ps));
    forall i | 0 <= i < |d|
      ensures d[i].name in Keys(ps) && |d[i].ids| > 0 &&
        d[i].ids[0] == ps[FirstPos(Keys(ps), d[i].name)].1
    {
      assert Names(d)[i] == d[i].name;
      var j := FirstPos(Keys(ps), d[i].name);
      IdsNamedHead(ps, j);
    }
  }

  // ------------------------------------------------------------ the document

  datatype Category = Category(id: int, name: string, supercategory: string)

  datatype ImageInfo = ImageInfo(
    id: int, width: int, height: int, fileName: string,
    license: int, flickrUrl: string, cocoUrl: string, dateCaptured: int)

  /** `{"occluded": False}` or `{"occluded": False, "rotation": 0}`. */
  datatype Attributes = Attributes(occluded: bool, rotation: Option<int>)

  datatype Annotation = Annotation(
    id: int, imageId: int, categoryId: int, segmentation: seq<seq<real>>,
    bbox: Box, area: real, iscrowd: int, attributes: Attributes)

  datatype License = License(name: string, id: int, url: string)

  datatype Info = Info(
    contributor: string, dateCreated: string, description: string,
    url: string, version: string, year: string)

  datatype Document = Document(
    licenses: seq<License>, info: Info, categories: seq<Category>,
    images: seq<ImageInfo>, annotations: seq<Annotation>)

  /** The exceptions the assembly can raise: `IndexError` from a category no
      alias list contains or from a missing mask, `TypeError` from zipping an
      element whose detection fields were never set. */
  datatype CocoError = CategoryNotFound(categoryId: int) | MaskMissing(imageId: int, index: nat) | NotIterable(imageId: int)

  /** One category per dictionary entry, numbered by its first-listed id + 1. */
  function Categories(d: seq<Group>): (r: seq<Category>)
    requires NonEmptyGroups(d)
    ensures |r| == |d|
    ensures forall i :: 0 <= i < |d| ==> r[i] == Category(d[i].ids[0] + 1, d[i].name, "")
  {
    seq(|d|, i requires 0 <= i < |d| => Category(d[i].ids[0] + 1, d[i].name, ""))
  }

  /** The categories of a dictionary built from `ps`: one per distinct name, in
      order of first appearance, each numbered by the id paired with that
      name's first occurrence, plus one. */
  lemma CategoriesOfGrouped(ps: seq<(string, int)>)
    ensures NonEmptyGroups(Grouped(ps))
    ensures |Categories(Grouped(ps))| == |Dedup(Keys(ps))|
    ensures forall i :: 0 <= i < |Dedup(Keys(ps))| ==>
      var c := Categories(Grouped(ps))[i];
      c.name == Dedup(Keys(ps))[i] && c.supercategory == "" &&
      c.name in Keys(ps) && c.id == ps[FirstPos(Keys(ps), c.name)].1 + 1
  {
    GroupedSpec(ps);
    GroupedFirstIds(ps);
  }

  function ImageEntries(rs: seq<Record>): (r: seq<ImageInfo>)
    ensures |r| == |rs|
    ensures forall i :: 0 <= i < |rs| ==>
      r[i].id == rs[i].imageId && r[i].width == rs[i].width && r[i].height == rs[i].height &&
      r[i].fileName == rs[i].fileName &&
      r[i].license == 0 && r[i].flickrUrl == "" && r[i].cocoUrl == "" && r[i].dateCaptured == 0
  {
    seq(|rs|, i requires 0 <= i < |rs| => ImageInfo(rs[i].imageId, rs[i].width, rs[i].height, rs[i].fileName, 0, "", "", 0))
  }

  /** The position of the first alias list that holds `x`, if any. */
  function FirstHolding(d: seq<Group>, x: int): (r: Option<nat>)
    ensures r.None? ==> forall i :: 0 <= i < |d| ==> x !in d[i].ids
    ensures r.Some? ==> r.value < |d| && x in d[r.value].ids &&
                        forall k :: 0 <= k < r.value ==> x !in d[k].ids
  {
    if |d| == 0 then None
    else if x in d[0].ids then Some(0)
    else
      var rest := FirstHolding(d[1..], x);
      assert forall i :: 1 <= i < |d| ==> d[i] == d[1..][i - 1];
      if rest.None? then None else Some(rest.value + 1)
  }

  /** The reverse lookup of a 1-based class id. */
  function Resolve(d: seq<Group>, categoryId: int): Result<int, CocoError> {
    match FirstHolding(d, categoryId - 1)
    case None => Err(CategoryNotFound(categoryId))
    case Some(i) => Ok(d[i].ids[0] + 1)
  }

  /** The lookup succeeds exactly when some alias list holds `categoryId - 1`;
      the first such list, in name order, gives its first id + 1, which is
      the id of that list's category. Otherwise the lookup raises. */
  lemma ResolveSpec(d: seq<Group>, categoryId: int)
    ensures Resolve(d, categoryId).Ok? <==> exists i :: 0 <= i < |d| && categoryId - 1 in d[i].ids
    ensures Resolve(d, categoryId).Ok? ==>
      exists i :: 0 <= i < |d| && categoryId - 1 in d[i].ids &&
        (forall j :: 0 <= j < i ==> categoryId - 1 !in d[j].ids) &&
        |d[i].ids| > 0 && Resolve(d, categoryId).value == d[i].ids[0] + 1
    ensures NonEmptyGroups(d) && Resolve(d, categoryId).Ok? ==>
      exists i :: 0 <= i < |d| && Categories(d)[i].id == Resolve(d, categoryId).value
    ensures Resolve(d, categoryId).Err? ==> Resolve(d, categoryId).error == CategoryNotFound(categoryId)
  {
    var f := FirstHolding(d, categoryId - 1);
    if f.Some? {
      var i := f.value;
      assert categoryId - 1 in d[i].ids;
      if NonEmptyGroups(d) {
        assert Categories(d)[i].id == Resolve(d, categoryId).value;
      }
    }
  }

  /** The entry of the name of pair `k` holds the id of that pair, and its
      first id is the one paired with the name's first occurrence. */
  lemma GroupOf(ps: seq<(string, int)>, k: nat) returns (a: nat)
    requires k < |ps|
    ensures ps[k].0 in Keys(ps)
    ensures a < |Grouped(ps)| && Grouped(ps)[a].name == ps[k].0 && ps[k].1 in Grouped(ps)[a].ids
    ensures Grouped(ps)[a].ids[0] == ps[FirstPos(Keys(ps), ps[k].0)].1
  {
    var d := Grouped(ps);
    var name := ps[k].0;
    assert Keys(ps)[k] == name;
    GroupedSpec(ps);
    GroupedFirstIds(ps);
    DedupMembers(Keys(ps));
    assert name in Names(d);
    a :| 0 <= a < |d| && Names(d)[a] == name;
    IdsNamedMembers(ps, name, ps[k].1);
  }

  /** When every id belongs to one name only, the class id of pair `k` resolves to
      the id paired with the first occurrence of its name, plus one: the id of the
      category of that name. */
  lemma ResolveAlias(ps: seq<(string, int)>, k: nat) returns (j: nat)
    requires forall i, j :: 0 <= i < j < |ps| ==> IdAt(ps, i) != IdAt(ps, j)
    requires k < |ps|
    ensures j <= k && ps[j].0 == ps[k].0 && forall i :: 0 <= i < j ==> ps[i].0 != ps[k].0
    ensures Resolve(Grouped(ps), ps[k].1 + 1) == Ok(ps[j].1 + 1)
  {
    var a := ResolveToGroup(ps, k);
    j := FirstOfGroup(ps, k, a);
  }

  /** The class id of pair `k` resolves through the entry of that pair's name. */
  lemma ResolveToGroup(ps: seq<(string, int)>, k: nat) returns (a: nat)
    requires forall i, j :: 0 <= i < j < |ps| ==> IdAt(ps, i) != IdAt(ps, j)
    requires k < |ps|
    ensures a < |Grouped(ps)| && Grouped(ps)[a].name == ps[k].0 && |Grouped(ps)[a].ids| > 0
    ensures Resolve(Grouped(ps), ps[k].1 + 1) == Ok(Grouped(ps)[a].ids[0] + 1)
  {
    a := GroupOf(ps, k);
    GroupedNamesDistinct(ps);
    HoldersNamed(ps, k);
    ResolveUnique(Grouped(ps), ps[k].1, a, ps[k].0, Grouped(ps)[a].ids[0]);
  }

  /** The first id of the entry of a name is paired with its first occurrence. */
  lemma FirstOfGroup(ps: seq<(string, int)>, k: nat, a: nat) returns (j: nat)
    requires k < |ps| && a < |Grouped(ps)| && Grouped(ps)[a].name == ps[k].0
    ensures j <= k && ps[j].0 == ps[k].0 && forall i :: 0 <= i < j ==> ps[i].0 != ps[k].0
    ensures |Grouped(ps)[a].ids| > 0 && Grouped(ps)[a].ids[0] == ps[j].1
  {
    assert Keys(ps)[k] == ps[k].0;
    GroupedFirstIds(ps);
    j := FirstPos(Keys(ps), ps[k].0);
    forall i | 0 <= i < j
      ensures ps[i].0 != ps[k].0
    {
      assert Keys(ps)[i] != ps[k].0;
    }
  }

  /** With distinct ids, every entry holding the id of pair `k` has that pair's name. */
  lemma HoldersNamed(ps: seq<(string, int)>, k: nat)
    requires forall i, j :: 0 <= i < j < |ps| ==> IdAt(ps, i) != IdAt(ps, j)
    requires k < |ps|
    ensures forall i :: 0 <= i < |Grouped(ps)| && ps[k].1 in Grouped(ps)[i].ids ==> Grouped(ps)[i].name == ps[k].0
  {
    forall i | 0 <= i < |Grouped(ps)| && ps[k].1 in Grouped(ps)[i].ids
      ensures Grouped(ps)[i].name == ps[k].0
    {
      HolderName(ps, i, k);
    }
  }

  /** An id held by one entry only resolves through that entry. */
  lemma ResolveUnique(d: seq<Group>, x: int, a: nat, name: string, first: int)
    requires DistinctStrings(Names(d)) && a < |d| && x in d[a].ids && d[a].ids[0] == first
    requires d[a].name == name && forall i :: 0 <= i < |d| && x in d[i].ids ==> d[i].name == name
    ensures Resolve(d, x + 1) == Ok(first + 1)
  {
    var i := FirstHolding(d, x).value;
    NameIndex(d, i, a);
    ResolveFirstHolding(d, x, a);
  }

  /** With distinct ids, the entry holding the id of pair `k` is that pair's name. */
  lemma HolderName(ps: seq<(string, int)>, i: nat, k: nat)
    requires forall i, j :: 0 <= i < j < |ps| ==> IdAt(ps, i) != IdAt(ps, j)
    requires k < |ps| && i < |Grouped(ps)| && ps[k].1 in Grouped(ps)[i].ids
    ensures Grouped(ps)[i].name == ps[k].0
  {
    var name := Grouped(ps)[i].name;
    GroupedSpec(ps);
    IdsNamedMembers(ps, name, ps[k].1);
    var j :| 0 <= j < |ps| && ps[j] == (name, ps[k].1);
    assert IdAt(ps, j) == IdAt(ps, k);
  }

  lemma GroupedNamesDistinct(ps: seq<(string, int)>)
    ensures DistinctStrings(Names(Grouped(ps)))
  {
    GroupedSpec(ps);
    DedupMembers(Keys(ps));
  }

  lemma NameIndex(d: seq<Group>, i: nat, a: nat)
    requires DistinctStrings(Names(d)) && i < |d| && a < |d| && d[i].name == d[a].name
    ensures i == a
  {
    assert Names(d)[i] == Names(d)[a];
  }

  lemma ResolveFirstHolding(d: seq<Group>, x: int, i: nat)
    requires i < |d| && FirstHolding(d, x) == Some(i)
    ensures Resolve(d, x + 1) == Ok(d[i].ids[0] + 1)
  {
    assert (x + 1) - 1 == x;
  }

  // ------------------------------------------------------------- annotations

  /** The three zipped fields are set (zipping `None` raises). */
  predicate Iterable(r: Record) {
    r.bbox.Some? && r.areas.Some? && r.categoryId.Some?
  }

  /** The number of detections `zip(bbox, areas, category_id)` yields. */
  function DetectionCount(r: Record): (n: nat)
    requires Iterable(r)
    ensures n <= |r.bbox.value| && n <= |r.areas.value| && n <= |r.categoryId.value|
    ensures n == |r.bbox.value| || n == |r.areas.value| || n == |r.categoryId.value|
  {
    var a := |r.bbox.value|;
    var b := |r.areas.value|;
    var c := |r.categoryId.value|;
    if a <= b && a <= c then a else if b <= c then b else c
  }

  /** The detection raises nothing: its class resolves, and the element has no
      masks or a mask at this position. */
  predicate DetectionOk(d: seq<Group>, r: Record, c: nat)
    requires Iterable(r) && c < DetectionCount(r)
  {
    Resolve(d, r.categoryId.value[c]).Ok? && (|r.detectedMasks| == 0 || c < |r.detectedMasks|)
  }

  /** The annotation of detection `counter` of element `r`, numbered `id`. */
  function MakeAnnotation(d: seq<Group>, r: Record, counter: nat, id: int): (a: Result<Annotation, CocoError>)
    requires Iterable(r) && counter < DetectionCount(r)
    ensures a.Ok? <==> DetectionOk(d, r, counter)
    ensures a.Ok? ==> a.value.id == id
  {
    match Resolve(d, r.categoryId.value[counter])
    case Err(e) => Err(e)
    case Ok(cat) =>
      if |r.detectedMasks| == 0 then
        Ok(Annotation(id, r.imageId, cat, [], r.bbox.value[counter], r.areas.value[counter],
                      r.iscrowd, Attributes(false, Some(0))))
      else if counter < |r.detectedMasks| then
        Ok(Annotation(id, r.imageId, cat, [r.detectedMasks[counter]], r.bbox.value[counter],
                      r.areas.value[counter], r.iscrowd, Attributes(false, None)))
      else Err(MaskMissing(r.imageId, counter))
  }

  /** The annotations of the first `n` detections of `r`, numbered from `firstId`;
      the first detection that raises stops the assembly. */
  function DetectionAnnotations(d: seq<Group>, r: Record, n: nat, firstId: int): Result<seq<Annotation>, CocoError>
    requires Iterable(r) && n <= DetectionCount(r)
  {
    if n == 0 then Ok([])
    else
      match DetectionAnnotations(d, r, n - 1, firstId)
      case Err(e) => Err(e)
      case Ok(prev) =>
        match MakeAnnotation(d, r, n - 1, firstId + n - 1)
        case Err(e) => Err(e)
        case Ok(a) => Ok(prev + [a])
  }

  function ElementAnnotations(d: seq<Group>, r: Record, firstId: int): Result<seq<Annotation>, CocoError> {
    if !Iterable(r) then Err(NotIterable(r.imageId))
    else DetectionAnnotations(d, r, DetectionCount(r), firstId)
  }

  /** The annotations of all elements in order, numbered from 1. */
  function AllAnnotations(d: seq<Group>, rs: seq<Record>): Result<seq<Annotation>, CocoError> {
    if |rs| == 0 then Ok([])
    else
      match AllAnnotations(d, rs[..|rs| - 1])
      case Err(e) => Err(e)
      case Ok(prev) =>
        match ElementAnnotations(d, rs[|rs| - 1], |prev| + 1)
        case Err(e) => Err(e)
        case Ok(cur) => Ok(prev + cur)
  }

  /** The whole document; it is an error exactly when an annotation raises. */
  function CocoDocument(d: seq<Group>, rs: seq<Record>): Result<Document, CocoError>
    requires NonEmptyGroups(d)
  {
    match AllAnnotations(d, rs)
    case Err(e) => Err(e)
    case Ok(anns) =>
      Ok(Document([License("", 0, "")], Info("", "", "", "", "", ""), Categories(d), ImageEntries(rs), anns))
  }

  /** The number of annotations an element contributes. */
  function AnnotationCounts(rs: seq<Record>): (r: seq<nat>)
    ensures |r| == |rs|
    ensures forall e :: 0 <= e < |rs| ==> r[e] == if Iterable(rs[e]) then DetectionCount(rs[e]) else 0
  {
    seq(|rs|, e requires 0 <= e < |rs| => if Iterable(rs[e]) then DetectionCount(rs[e]) else 0)
  }

  /** Where detection `c` of element `e` lands in the annotations list. */
  function Position(rs: seq<Record>, e: nat, c: nat): nat
    requires e <= |rs|
  {
    Sum(AnnotationCounts(rs)[..e]) + c
  }

  /** The annotation detection `c` of element `e` yields at its position. */
  function AnnotationOf(d: seq<Group>, rs: seq<Record>, e: nat, c: nat): Result<Annotation, CocoError>
    requires e < |rs| && Iterable(rs[e]) && c < DetectionCount(rs[e])
  {
    MakeAnnotation(d, rs[e], c, Position(rs, e, c) + 1)
  }

  /** An element converts without raising: its three fields are set, every
      detection's class resolves, and it has no masks or one per detection. */
  predicate Convertible(d: seq<Group>, r: Record) {
    Iterable(r) &&
    (forall c :: 0 <= c < DetectionCount(r) ==> Resolve(d, r.categoryId.value[c]).Ok?) &&
    (|r.detectedMasks| == 0 || DetectionCount(r) <= |r.detectedMasks|)
  }

  /** A prefix of one element's detections assembles exactly when none of them raises. */
  lemma {:induction false} DetectionAnnotationsOk(d: seq<Group>, r: Record, n: nat, firstId: int)
    requires Iterable(r) && n <= DetectionCount(r)
    ensures DetectionAnnotations(d, r, n, firstId).Ok? <==> forall c :: 0 <= c < n ==> DetectionOk(d, r, c)
  {
    if n > 0 {
      DetectionAnnotationsOk(d, r, n - 1, firstId);
    }
  }

  /** An assembled prefix holds one annotation per detection, numbered on from `firstId`. */
  lemma {:induction false} DetectionAnnotationsValues(d: seq<Group>, r: Record, n: nat, firstId: int)
    requires Iterable(r) && n <= DetectionCount(r)
    requires DetectionAnnotations(d, r, n, firstId).Ok?
    ensures |DetectionAnnotations(d, r, n, firstId).value| == n
    ensures forall c :: 0 <= c < n ==>
      Ok(DetectionAnnotations(d, r, n, firstId).value[c]) == MakeAnnotation(d, r, c, firstId + c)
  {
    if n > 0 {
      DetectionAnnotationsValues(d, r, n - 1, firstId);
    }
  }

  /** Detection `c` is the first of its element to raise. */
  predicate FirstFailure(d: seq<Group>, r: Record, c: nat)
    requires Iterable(r) && c < DetectionCount(r)
  {
    !DetectionOk(d, r, c) && forall c' :: 0 <= c' < c ==> DetectionOk(d, r, c')
  }

  /** A prefix that raises raises the error of its first failing detection. */
  lemma {:induction false} DetectionAnnotationsFirstError(d: seq<Group>, r: Record, n: nat, firstId: int)
    requires Iterable(r) && n <= DetectionCount(r)
    requires DetectionAnnotations(d, r, n, firstId).Err?
    ensures exists c ::
      && 0 <= c < n
      && FirstFailure(d, r, c)
      && MakeAnnotation(d, r, c, firstId + c) == Err(DetectionAnnotations(d, r, n, firstId).error)
  {
    var prev := DetectionAnnotations(d, r, n - 1, firstId);
    var err := DetectionAnnotations(d, r, n, firstId).error;
    if prev.Err? {
      DetectionAnnotationsFirstError(d, r, n - 1, firstId);
      var c :| 0 <= c < n - 1 && FirstFailure(d, r, c) && MakeAnnotation(d, r, c, firstId + c) == Err(prev.error);
      assert prev.error == err;
    } else {
      DetectionAnnotationsOk(d, r, n - 1, firstId);
      assert FirstFailure(d, r, n - 1);
      assert MakeAnnotation(d, r, n - 1, firstId + (n - 1)) == Err(err);
    }
  }

  /** An element raises nothing exactly when it is convertible; it then yields
      one annotation per zipped detection, numbered on from `firstId`. */
  lemma ElementAnnotationsSpec(d: seq<Group>, r: Record, firstId: int)
    ensures ElementAnnotations(d, r, firstId).Ok? <==> Convertible(d, r)
    ensures ElementAnnotations(d, r, firstId).Ok? ==>
      |ElementAnnotations(d, r, firstId).value| == DetectionCount(r) &&
      forall c :: 0 <= c < DetectionCount(r) ==>
        Ok(ElementAnnotations(d, r, firstId).value[c]) == MakeAnnotation(d, r, c, firstId + c)
  {
    if Iterable(r) {
      var n := DetectionCount(r);
      DetectionAnnotationsOk(d, r, n, firstId);
      if DetectionAnnotations(d, r, n, firstId).Ok? {
        DetectionAnnotationsValues(d, r, n, firstId);
      }
      if |r.detectedMasks| != 0 && n > |r.detectedMasks| {
        assert !DetectionOk(d, r, |r.detectedMasks|);
      }
      if Convertible(d, r) {
        forall c | 0 <= c < n
          ensures DetectionOk(d, r, c)
        {
        }
      }
      if DetectionAnnotations(d, r, n, firstId).Ok? {
        forall c | 0 <= c < n
          ensures Resolve(d, r.categoryId.value[c]).Ok?
        {
          assert DetectionOk(d, r, c);
        }
      }
    }
  }

  /** A converted element contributes one annotation per zipped detection. */
  lemma ElementAnnotationsCount(d: seq<Group>, r: Record, firstId: int)
    requires ElementAnnotations(d, r, firstId).Ok?
    ensures Iterable(r) && |ElementAnnotations(d, r, firstId).value| == DetectionCount(r)
  {
    DetectionAnnotationsValues(d, r, DetectionCount(r), firstId);
  }

  lemma DetectionStep(d: seq<Group>, r: Record, c: nat, firstId: int, cur: seq<Annotation>, a: Annotation)
    requires Iterable(r) && c < DetectionCount(r)
    requires DetectionAnnotations(d, r, c, firstId) == Ok(cur)
    requires MakeAnnotation(d, r, c, firstId + c) == Ok(a)
    ensures DetectionAnnotations(d, r, c + 1, firstId) == Ok(cur + [a])
  {
  }

  lemma ElementStep(d: seq<Group>, rs: seq<Record>, e: nat, prev: seq<Annotation>, cur: seq<Annotation>)
    requires e < |rs| && Iterable(rs[e])
    requires AllAnnotations(d, rs[..e]) == Ok(prev)
    requires DetectionAnnotations(d, rs[e], DetectionCount(rs[e]), |prev| + 1) == Ok(cur)
    ensures AllAnnotations(d, rs[..e + 1]) == Ok(prev + cur)
  {
    assert rs[..e + 1][..e] == rs[..e];
  }

  /** Once detection `c` raises, no longer prefix of detections succeeds. */
  lemma {:induction false} DetectionErrorStops(d: seq<Group>, r: Record, c: nat, n: nat, firstId: int, err: CocoError)
    requires Iterable(r) && c < n <= DetectionCount(r)
    requires DetectionAnnotations(d, r, c, firstId).Ok?
    requires MakeAnnotation(d, r, c, firstId + c) == Err(err)
    ensures DetectionAnnotations(d, r, n, firstId) == Err(err)
    decreases n
  {
    if n - 1 > c {
      DetectionErrorStops(d, r, c, n - 1, firstId, err);
    }
  }

  /** Once element `e` raises, the whole assembly raises the same error. */
  lemma ElementErrorStops(d: seq<Group>, rs: seq<Record>, e: nat, err: CocoError)
    requires e < |rs|
    requires AllAnnotations(d, rs[..e]).Ok?
    requires ElementAnnotations(d, rs[e], |AllAnnotations(d, rs[..e]).value| + 1) == Err(err)
    ensures AllAnnotations(d, rs) == Err(err)
  {
    assert rs[..e + 1][..e] == rs[..e];
    var m := e + 1;
    while m < |rs|
      invariant e < m <= |rs|
      invariant AllAnnotations(d, rs[..m]) == Err(err)
    {
      ErrorPersists(d, rs, m, err);
      m := m + 1;
    }
    assert rs[..m] == rs;
  }

  /** An error of a prefix is the error of the next longer prefix. */
  lemma ErrorPersists(d: seq<Group>, rs: seq<Record>, m: nat, err: CocoError)
    requires m < |rs| && AllAnnotations(d, rs[..m]) == Err(err)
    ensures AllAnnotations(d, rs[..m + 1]) == Err(err)
  {
    assert rs[..m + 1][..m] == rs[..m];
  }

  /** The assembly succeeds exactly when every element converts. */
  lemma {:induction false} AllAnnotationsOk(d: seq<Group>, rs: seq<Record>)
    ensures AllAnnotations(d, rs).Ok? <==> forall e :: 0 <= e < |rs| ==> Convertible(d, rs[e])
  {
    if |rs| > 0 {
      var n := |rs| - 1;
      var p := rs[..n];
      AllAnnotationsOk(d, p);
      assert forall e :: 0 <= e < |p| ==> p[e] == rs[e];
      var prev := AllAnnotations(d, p);
      if prev.Ok? {
        ElementAnnotationsSpec(d, rs[n], |prev.value| + 1);
      }
    }
  }

  lemma SumPrefix(c: seq<nat>, e: nat)
    requires e < |c|
    ensures Sum(c[..e + 1]) == Sum(c[..e]) + c[e]
  {
    assert c[..e + 1][..e] == c[..e];
  }

  lemma AllAnnotationsSplit(d: seq<Group>, rs: seq<Record>)
    requires |rs| > 0 && AllAnnotations(d, rs).Ok?
    ensures AllAnnotations(d, rs[..|rs| - 1]).Ok?
    ensures ElementAnnotations(d, rs[|rs| - 1], |AllAnnotations(d, rs[..|rs| - 1]).value| + 1).Ok?
    ensures AllAnnotations(d, rs).value ==
      AllAnnotations(d, rs[..|rs| - 1]).value +
      ElementAnnotations(d, rs[|rs| - 1], |AllAnnotations(d, rs[..|rs| - 1]).value| + 1).value
  {
  }

  lemma PositionPrefix(rs: seq<Record>, n: nat, e: nat, c: nat)
    requires e < n <= |rs|
    ensures Position(rs, e, c) == Position(rs[..n], e, c)
  {
    assert AnnotationCounts(rs)[..e] == AnnotationCounts(rs[..n])[..e];
  }

  /** A successful assembly yields one annotation per zipped detection. */
  lemma {:induction false} AllAnnotationsLength(d: seq<Group>, rs: seq<Record>)
    requires AllAnnotations(d, rs).Ok?
    ensures |AllAnnotations(d, rs).value| == Sum(AnnotationCounts(rs))
  {
    if |rs| > 0 {
      var n := |rs| - 1;
      var p := rs[..n];
      AllAnnotationsSplit(d, rs);
      var prev := AllAnnotations(d, p).value;
      AllAnnotationsLength(d, p);
      ElementAnnotationsCount(d, rs[n], |prev| + 1);
      var counts := AnnotationCounts(rs);
      assert counts[..n] == AnnotationCounts(p);
      SumPrefix(counts, n);
      assert counts[..n + 1] == counts;
    }
  }

  /** The annotations of the last element start right after those of the others. */
  lemma LastStart(d: seq<Group>, rs: seq<Record>)
    requires |rs| > 0 && AllAnnotations(d, rs).Ok?
    ensures AllAnnotations(d, rs[..|rs| - 1]).Ok?
    ensures Position(rs, |rs| - 1, 0) == |AllAnnotations(d, rs[..|rs| - 1]).value|
  {
    var n := |rs| - 1;
    AllAnnotationsSplit(d, rs);
    AllAnnotationsLength(d, rs[..n]);
    assert AnnotationCounts(rs)[..n] == AnnotationCounts(rs[..n]);
  }

  lemma LastAt(d: seq<Group>, rs: seq<Record>, c: nat)
    requires |rs| > 0 && AllAnnotations(d, rs).Ok?
    requires c < AnnotationCounts(rs)[|rs| - 1]
    ensures Position(rs, |rs| - 1, c) < |AllAnnotations(d, rs).value|
    ensures Ok(AllAnnotations(d, rs).value[Position(rs, |rs| - 1, c)]) == AnnotationOf(d, rs, |rs| - 1, c)
  {
    var n := |rs| - 1;
    LastStart(d, rs);
    AllAnnotationsSplit(d, rs);
    var prev := AllAnnotations(d, rs[..n]).value;
    var cur := ElementAnnotations(d, rs[n], |prev| + 1).value;
    assert c < |cur| && Ok(cur[c]) == MakeAnnotation(d, rs[n], c, |prev| + 1 + c) by {
      ElementAnnotationsSpec(d, rs[n], |prev| + 1);
    }
    var pos := Position(rs, n, c);
    ConcatAt(AllAnnotations(d, rs).value, prev, cur, pos, c);
    AnnotationOfId(d, rs, n, c, |prev| + 1 + c);
  }

  lemma AnnotationOfId(d: seq<Group>, rs: seq<Record>, e: nat, c: nat, id: int)
    requires e < |rs| && Iterable(rs[e]) && c < DetectionCount(rs[e])
    requires id == Position(rs, e, c) + 1
    ensures AnnotationOf(d, rs, e, c) == MakeAnnotation(d, rs[e], c, id)
  {
  }

  /** In a successful assembly, detection `c` of element `e` sits at
      `Position(rs, e, c)`, element after element, and is made from that
      detection. */
  lemma {:induction false} AllAnnotationsAt(d: seq<Group>, rs: seq<Record>, e: nat, c: nat)
    requires AllAnnotations(d, rs).Ok?
    requires e < |rs| && c < AnnotationCounts(rs)[e]
    ensures Position(rs, e, c) < |AllAnnotations(d, rs).value|
    ensures Ok(AllAnnotations(d, rs).value[Position(rs, e, c)]) == AnnotationOf(d, rs, e, c)
  {
    var n := |rs| - 1;
    if e < n {
      var p := rs[..n];
      AllAnnotationsSplit(d, rs);
      assert p[e] == rs[e];
      assert AnnotationCounts(p)[e] == AnnotationCounts(rs)[e];
      AllAnnotationsAt(d, p, e, c);
      PositionPrefix(rs, n, e, c);
    } else {
      LastAt(d, rs, c);
    }
  }

  /** Annotation ids are 1, 2, 3, ... across the whole document, regardless of
      the ids inference attached to the elements. */
  lemma {:induction false} AnnotationIdsFromOne(d: seq<Group>, rs: seq<Record>)
    ensures AllAnnotations(d, rs).Ok? ==>
      forall k :: 0 <= k < |AllAnnotations(d, rs).value| ==> AllAnnotations(d, rs).value[k].id == k + 1
  {
    if |rs| > 0 {
      var n := |rs| - 1;
      AnnotationIdsFromOne(d, rs[..n]);
      var prev := AllAnnotations(d, rs[..n]);
      if prev.Ok? {
        ElementAnnotationsSpec(d, rs[n], |prev.value| + 1);
      }
    }
  }

  /** What the annotation of detection `c` of element `e` holds: its position
      plus one as id, the element's image id and iscrowd, the detection's box
      and area unchanged, the resolved category, and the mask segmentation
      with `{occluded}` when the element has masks, an empty one with
      `{occluded, rotation: 0}` when it has none. */
  lemma AnnotationAt(d: seq<Group>, rs: seq<Record>, e: nat, c: nat)
    requires AllAnnotations(d, rs).Ok?
    requires e < |rs| && c < AnnotationCounts(rs)[e]
    ensures Convertible(d, rs[e]) && c < DetectionCount(rs[e])
    ensures Position(rs, e, c) < |AllAnnotations(d, rs).value|
    ensures var a := AllAnnotations(d, rs).value[Position(rs, e, c)];
      a.id == Position(rs, e, c) + 1 && a.imageId == rs[e].imageId && a.iscrowd == rs[e].iscrowd &&
      a.bbox == rs[e].bbox.value[c] && a.area == rs[e].areas.value[c] &&
      Resolve(d, rs[e].categoryId.value[c]) == Ok(a.categoryId) &&
      if |rs[e].detectedMasks| > 0
      then a.segmentation == [rs[e].detectedMasks[c]] && a.attributes == Attributes(false, None)
      else a.segmentation == [] && a.attributes == Attributes(false, Some(0))
  {
    AllAnnotationsOk(d, rs);
    AllAnnotationsAt(d, rs, e, c);
  }

  /** The document is produced exactly when every element converts; it then
      carries the constant licenses and info blocks, one category per
      dictionary entry, one image per element and the assembled annotations. */
  lemma DocumentShape(d: seq<Group>, rs: seq<Record>)
    requires NonEmptyGroups(d)
    ensures CocoDocument(d, rs).Ok? <==> forall e :: 0 <= e < |rs| ==> Convertible(d, rs[e])
    ensures CocoDocument(d, rs).Ok? ==>
      var doc := CocoDocument(d, rs).value;
      doc.licenses == [License("", 0, "")] && doc.info == Info("", "", "", "", "", "") &&
      |doc.categories| == |d| && |doc.images| == |rs| &&
      doc.annotations == AllAnnotations(d, rs).value &&
      |doc.annotations| == Sum(AnnotationCounts(rs))
    // one category per dictionary entry, in dictionary order, numbered by its first id plus one
    ensures CocoDocument(d, rs).Ok? ==>
      var doc := CocoDocument(d, rs).value;
      forall i :: 0 <= i < |d| ==>
        doc.categories[i].id == d[i].ids[0] + 1 && doc.categories[i].name == d[i].name &&
        doc.categories[i].supercategory == ""
    // one image entry per element, in element order, copying its id, size and file name
    ensures CocoDocument(d, rs).Ok? ==>
      var doc := CocoDocument(d, rs).value;
      forall i :: 0 <= i < |rs| ==>
        doc.images[i].id == rs[i].imageId && doc.images[i].width == rs[i].width &&
        doc.images[i].height == rs[i].height && doc.images[i].fileName == rs[i].fileName &&
        doc.images[i].license == 0 && doc.images[i].flickrUrl == "" &&
        doc.images[i].cocoUrl == "" && doc.images[i].dateCaptured == 0
    ensures CocoDocument(d, rs).Err? ==> CocoDocument(d, rs).error == AllAnnotations(d, rs).error
  {
    AllAnnotationsOk(d, rs);
    if AllAnnotations(d, rs).Ok? {
      AllAnnotationsLength(d, rs);
    }
  }

  // ------------------------------------------------------------ the converter

  class COCOConverter {
    var elements: seq<Element>
    var categoryDict: seq<Group>

    /** Groups the category ids by name, in zip order. */
    constructor (elements: seq<Element>, categoryNames: seq<string>, categoryId: seq<int>)
      ensures this.elements == elements
      ensures categoryDict == Grouped(Zip(categoryNames, categoryId))
      ensures NonEmptyGroups(categoryDict)
    {
      this.elements := elements;
      ghost var ps := Zip(categoryNames, categoryId);
      var dict: seq<Group> := [];
      var n := Min(|categoryNames|, |categoryId|);
      var i := 0;
      while i < n
        invariant 0 <= i <= n
        invariant dict == Grouped(ps[..i])
      {
        assert ps[..i + 1][..i] == ps[..i];
        dict := AddToGroup(dict, categoryNames[i], categoryId[i]);
        i := i + 1;
      }
      assert ps[..n] == ps;
      categoryDict := dict;
      GroupedFirstIds(ps);
    }

    /** Builds the document: categories, images, then the annotations of every
        element in order, numbered from 1; the first exception aborts. */
    method ConvertToCoco() returns (r: Result<Document, CocoError>)
      requires NonEmptyGroups(categoryDict)
      ensures r == CocoDocument(categoryDict, Records(elements))
    {
      var d := categoryDict;
      var categories := Categories(d);
      var rs := Records(elements);
      var images := ImageEntries(rs);
      var annotations: seq<Annotation> := [];
      var e := 0;
      while e < |rs|
        invariant 0 <= e <= |rs|
        invariant AllAnnotations(d, rs[..e]) == Ok(annotations)
      {
        var elem := rs[e];
        if !Iterable(elem) {
          ElementErrorStops(d, rs, e, NotIterable(elem.imageId));
          return Err(NotIterable(elem.imageId));
        }
        var next := AppendAnnotations(d, elem, annotations);
        if next.Err? {
          ElementErrorStops(d, rs, e, next.error);
          return Err(next.error);
        }
        ElementStep(d, rs, e, annotations, next.value[|annotations|..]);
        assert next.value == annotations + next.value[|annotations|..];
        annotations := next.value;
        e := e + 1;
      }
      assert rs[..|rs|] == rs;
      r := Ok(Document([License("", 0, "")], Info("", "", "", "", "", ""), categories, images, annotations));
    }
  }

  /** The inner loop of the assembly: appends the annotations of one element's
      zipped detections, numbering on from `|annotations| + 1`, or stops at the
      first detection that raises. */
  method AppendAnnotations(d: seq<Group>, elem: Record, annotations: seq<Annotation>)
    returns (r: Result<seq<Annotation>, CocoError>)
    requires Iterable(elem)
    ensures r.Ok? <==> DetectionAnnotations(d, elem, DetectionCount(elem), |annotations| + 1).Ok?
    ensures r.Ok? ==> r.value == annotations + DetectionAnnotations(d, elem, DetectionCount(elem), |annotations| + 1).value
    ensures r.Err? ==> r.error == DetectionAnnotations(d, elem, DetectionCount(elem), |annotations| + 1).error
  {
    var all := annotations;
    ghost var cur: seq<Annotation> := [];
    var annotationId := |annotations| + 1;
    var n := DetectionCount(elem);
    var counter := 0;
    while counter < n
      invariant 0 <= counter <= n
      invariant all == annotations + cur && |cur| == counter
      invariant DetectionAnnotations(d, elem, counter, |annotations| + 1) == Ok(cur)
      invariant annotationId == |annotations| + 1 + counter
    {
      var annotation := MakeAnnotation(d, elem, counter, annotationId);
      if annotation.Err? {
        DetectionErrorStops(d, elem, counter, n, |annotations| + 1, annotation.error);
        return Err(annotation.error);
      }
      DetectionStep(d, elem, counter, |annotations| + 1, cur, annotation.value);
      all := all + [annotation.value];
      cur := cur + [annotation.value];
      annotationId := annotationId + 1;
      counter := counter + 1;
    }
    r := Ok(all);
  }
}
