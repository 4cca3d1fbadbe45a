/**
 * The environment serializer: renders a list of environments either as they are
 * (optionally one page of them) or grouped into folders, one item per folder with
 * the folder's size and its latest environment.
 */
module EnvironmentSerializers {
  import opened Basics

  /** A row of the environments table. */
  datatype Environment = Environment(id: int, name: string, environmentType: Option<string>)

  /** `Item`: a folder name, how many environments it holds, and the newest of them. */
  datatype Item = Item(name: string, size: nat, latest: Environment)

  /**
   * The page a paginator cuts out of a collection: `limit` entries starting at
   * `offset`. How it is read from the request is not modelled.
   */
  datatype Paginator = Paginator(offset: nat, limit: nat)

  /** What `represent` produces. */
  datatype Rendered = Plain(entities: seq<Environment>) | Itemized(items: seq<Item>)

  // ---------------------------------------------------------------------------
  // Folder names and their order

  /** `COALESCE(environment_type, name)`. */
  function Folder(e: Environment): string {
    e.environmentType.GetOr(e.name)
  }

  /** The ascending order of folder names: by character code, a proper prefix first. */
  predicate Before(a: string, b: string)
    decreases |a|
  {
    b != [] && (a == [] || a[0] < b[0] || (a[0] == b[0] && Before(a[1..], b[1..])))
  }

  lemma {:induction false} BeforeIrreflexive(a: string)
    ensures !Before(a, a)
    decreases |a|
  {
    if a != [] {
      BeforeIrreflexive(a[1..]);
    }
  }

  lemma {:induction false} BeforeTransitive(a: string, b: string, c: string)
    requires Before(a, b) && Before(b, c)
    ensures Before(a, c)
    decreases |a|
  {
    if a != [] && a[0] == b[0] && b[0] == c[0] {
      BeforeTransitive(a[1..], b[1..], c[1..]);
    }
  }

  lemma {:induction false} BeforeTotal(a: string, b: string)
    ensures a == b || Before(a, b) || Before(b, a)
    decreases |a|
  {
    if a != [] && b != [] && a[0] == b[0] {
      BeforeTotal(a[1..], b[1..]);
      if a[1..] == b[1..] {
        assert a == [a[0]] + a[1..] && b == [b[0]] + b[1..];
      }
    }
  }

  predicate Ascending(fs: seq<string>) {
    forall i, j :: 0 <= i < j < |fs| ==> Before(fs[i], fs[j])
  }

  /** Adds a folder name to an ascending list of distinct names. */
  function InsertFolder(f: string, fs: seq<string>): (r: seq<string>)
    requires Ascending(fs)
    ensures Ascending(r) && r != []
    ensures forall x :: x in r <==> x == f || x in fs
    ensures r[0] == f || (fs != [] && r[0] == fs[0])
  {
    if fs == [] then [f]
    else if f == fs[0] then fs
    else if Before(f, fs[0]) then
      assert forall j :: 0 <= j < |fs| ==> Before(f, fs[j]) by {
        forall j | 0 < j < |fs| ensures Before(f, fs[j]) {
          BeforeTransitive(f, fs[0], fs[j]);
        }
      }
      [f] + fs
    else
      var rest := InsertFolder(f, fs[1..]);
      BeforeTotal(f, fs[0]);
      assert Before(fs[0], rest[0]);
      assert forall j :: 0 <= j < |rest| ==> Before(fs[0], rest[j]) by {
        forall j | 0 < j < |rest| ensures Before(fs[0], rest[j]) {
          BeforeTransitive(fs[0], rest[0], rest[j]);
        }
      }
      [fs[0]] + rest
  }

  /** The distinct folder names among `envs`, ascending (`group` and `order('folder_name ASC')`). */
  function FolderNames(envs: seq<Environment>): (r: seq<string>)
    ensures Ascending(r)
    ensures forall f :: f in r <==> exists i :: 0 <= i < |envs| && Folder(envs[i]) == f
  {
    if envs == [] then []
    else
      var init := envs[..|envs| - 1];
      assert forall i :: 0 <= i < |init| ==> init[i] == envs[i];
      InsertFolder(Folder(envs[|envs| - 1]), FolderNames(init))
  }

  /** The environments of folder `f`, in their order. */
  function InFolder(envs: seq<Environment>, f: string): (r: seq<Environment>)
    ensures forall e :: e in r <==> e in envs && Folder(e) == f
    ensures forall e :: Folder(e) == f ==> multiset(r)[e] == multiset(envs)[e]
  {
    if envs == [] then []
    else
      var rest := InFolder(envs[1..], f);
      assert envs == [envs[0]] + envs[1..];
      if Folder(envs[0]) == f then [envs[0]] + rest else rest
  }

  /** `MAX(id)` looked up by id: the environment with the largest id (the first on a tie). */
  function Latest(envs: seq<Environment>): (r: Environment)
    requires envs != []
    ensures r in envs
    ensures forall i :: 0 <= i < |envs| ==> envs[i].id <= r.id
  {
    if |envs| == 1 then envs[0]
    else
      var rest := Latest(envs[1..]);
      assert forall i :: 1 <= i < |envs| ==> envs[i] == envs[1..][i - 1];
      if envs[0].id >= rest.id then envs[0] else rest
  }

  /** The item of folder `f`: its name, `COUNT(*)` and latest environment. */
  function ItemOf(envs: seq<Environment>, f: string): (it: Item)
    requires f in FolderNames(envs)
    ensures it.name == f && Folder(it.latest) == f && it.latest in envs
  {
    var i :| 0 <= i < |envs| && Folder(envs[i]) == f;
    assert envs[i] in InFolder(envs, f);
    var members := InFolder(envs, f);
    Item(f, |members|, Latest(members))
  }

  /** The folder items of `envs`, one per distinct folder name, ascending by name. */
  function Items(envs: seq<Environment>): (r: seq<Item>)
    ensures |r| == |FolderNames(envs)|
    ensures forall i :: 0 <= i < |r| ==> FolderNames(envs)[i] in FolderNames(envs)
                                         && r[i] == ItemOf(envs, FolderNames(envs)[i])
  {
    var fs := FolderNames(envs);
    seq(|fs|, i requires 0 <= i < |fs| => assert fs[i] in fs; ItemOf(envs, fs[i]))
  }

  /** `@paginator.paginate`: the page's slice of a collection, possibly empty. */
  function Paginate<T>(s: seq<T>, p: Paginator): (r: seq<T>)
    ensures |r| <= p.limit
    ensures p.offset + |r| <= |s| || r == []
    ensures forall i :: 0 <= i < |r| ==> p.offset + i < |s| && r[i] == s[p.offset + i]
    ensures p.offset + p.limit <= |s| ==> |r| == p.limit
    ensures p.offset < |s| ==> |r| == (if p.offset + p.limit <= |s| then p.limit else |s| - p.offset)
    ensures p.offset >= |s| ==> r == []
  {
    if p.offset >= |s| then []
    else if p.offset + p.limit <= |s| then s[p.offset..p.offset + p.limit]
    else s[p.offset..]
  }

  /** `itemize`: the folder items, one page of them when a paginator is set. */
  function Itemize(envs: seq<Environment>, paginator: Option<Paginator>): seq<Item> {
    if paginator.Some? then Paginate(Items(envs), paginator.value) else Items(envs)
  }

  /** `represent` for a serializer whose flags are `itemize` and `paginator`. */
  function Representation(itemize: bool, paginator: Option<Paginator>, resource: seq<Environment>): Rendered {
    if itemize then Itemized(Itemize(resource, paginator))
    else if paginator.Some? then Plain(Paginate(resource, paginator.value))
    else Plain(resource)
  }

  // ---------------------------------------------------------------------------
  // The serializer object

  class EnvironmentSerializer {
    /** `@itemize`, unset (so false) until `within_folders`. */
    var itemize: bool
    /** `@paginator`, unset until `with_pagination`. */
    var paginator: Option<Paginator>

    constructor ()
      ensures !itemize && paginator.None?
    {
      itemize := false;
      paginator := None;
    }

    /** `within_folders`: switches itemizing on and returns the serializer itself. */
    method WithinFolders() returns (s: EnvironmentSerializer)
      modifies this
      ensures s == this && itemize && paginator == old(paginator)
    {
      itemize := true;
      s := this;
    }

    /** `with_pagination`: sets the paginator and returns the serializer itself. */
    method WithPagination(p: Paginator) returns (s: EnvironmentSerializer)
      modifies this
      ensures s == this && paginator == Some(p) && itemize == old(itemize)
    {
      paginator := Some(p);
      s := this;
    }

    /** `itemized?`. */
    function IsItemized(): bool
      reads this
    {
      itemize
    }

    /** `paginated?`. */
    function IsPaginated(): bool
      reads this
    {
      paginator.Some?
    }

    /** `represent(resource)`. */
    method Represent(resource: seq<Environment>) returns (r: Rendered)
      ensures r == Representation(itemize, paginator, resource)
      ensures !itemize && paginator.None? ==> r == Plain(resource)
    {
      if itemize {
        var items := Items(resource);
        if paginator.Some? {
          items := Paginate(items, paginator.value);
        }
        r := Itemized(items);
      } else if paginator.Some? {
        r := Plain(Paginate(resource, paginator.value));
      } else {
        r := Plain(resource);
      }
    }
  }

  // ---------------------------------------------------------------------------
  // What the folder items say

  /** Every environment's folder has exactly one item, and every item is such a folder. */
  lemma {:induction false} OneItemPerFolder(envs: seq<Environment>, f: string)
    ensures (exists i :: 0 <= i < |Items(envs)| && Items(envs)[i].name == f)
            <==> exists k :: 0 <= k < |envs| && Folder(envs[k]) == f
    ensures forall i, j :: 0 <= i < j < |Items(envs)| ==> Items(envs)[i].name != Items(envs)[j].name
  {
    var fs := FolderNames(envs);
    var r := Items(envs);
    if exists k :: 0 <= k < |envs| && Folder(envs[k]) == f {
      assert f in fs;
      var i :| 0 <= i < |fs| && fs[i] == f;
      assert r[i].name == f;
    }
    forall i, j | 0 <= i < j < |r| ensures r[i].name != r[j].name {
      BeforeIrreflexive(fs[i]);
    }
  }

  /** The items are in ascending order of folder name. */
  lemma ItemsAscending(envs: seq<Environment>)
    ensures forall i, j :: 0 <= i < j < |Items(envs)| ==> Before(Items(envs)[i].name, Items(envs)[j].name)
  {
  }

  /**
   * An item's size is the number of environments in its folder, and its latest is the
   * environment of that folder with the largest id.
   */
  lemma ItemSizeAndLatest(envs: seq<Environment>, i: nat)
    requires i < |Items(envs)|
    ensures var it := Items(envs)[i];
            && it.latest in envs && Folder(it.latest) == it.name
            && (forall e :: e in envs && Folder(e) == it.name ==> e.id <= it.latest.id)
            && it.size == |InFolder(envs, it.name)|
            && (forall e :: Folder(e) == it.name ==> multiset(InFolder(envs, it.name))[e] == multiset(envs)[e])
  {
    var it := Items(envs)[i];
    var members := InFolder(envs, it.name);
    forall e | e in envs && Folder(e) == it.name ensures e.id <= it.latest.id {
      assert e in members;
      var k :| 0 <= k < |members| && members[k] == e;
    }
  }

  /** With neither flag set the resource is rendered unchanged. */
  lemma PlainRepresentation(resource: seq<Environment>)
    ensures Representation(false, None, resource) == Plain(resource)
  {
  }

  /** A paginated itemized rendering is a window of the full list of items. */
  lemma PaginatedItems(resource: seq<Environment>, p: Paginator)
    ensures var items := Representation(true, Some(p), resource).items;
            && |items| <= p.limit
            && forall i :: 0 <= i < |items| ==> p.offset + i < |Items(resource)| && items[i] == Items(resource)[p.offset + i]
  {
  }
}
