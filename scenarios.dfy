/**
 * Client code that drives the repository through the sequences a running
 * process goes through. Each scenario starts from a fresh remote file and a
 * fresh (empty) cache, and states what the caller can rely on whatever the
 * remote's failures are.
 */
module Scenarios {
  import opened Types
  import opened GitHub
  import opened Store

  /** Two reads `dt` apart: the second is served from the cache exactly when `dt` is under the freshness window. */
  method TwoReads(initial: Document, t0: int, dt: int)
    returns (first: Result<StoreData>, second: Result<StoreData>, requests: seq<Request>)
    requires dt >= 0
    ensures first.Ok? ==> first.value.Value() == initial
    ensures first.Ok? && dt < CacheTtl ==> second == first && requests == [Read]
    ensures first.Ok? && dt >= CacheTtl ==> requests == [Read, Read] && second != first
    ensures first.Err? ==> requests == [Read, Read]
    ensures second.Ok? ==> second.value.Value() == initial
  {
    var remote := new RemoteFile(initial);
    var repo := new Repository(remote);
    first := repo.GetStoreData(t0);
    second := repo.GetStoreData(t0 + dt);
    requests := remote.log;
  }

  /**
   * A category added at `saveAt` is what a read at `later` sees, even though
   * the document was first fetched at `t0`, longer ago than the window:
   * a successful save restarts the window.
   */
  method WriteThenRead(initial: Document, c: Category, t0: int, saveAt: int, later: int)
    returns (added: Outcome, listed: Result<seq<Category>>, requests: seq<Request>)
    requires t0 <= saveAt <= later < saveAt + CacheTtl
    ensures added.Done? ==> listed == Ok(initial.categories + [c])
    ensures added.Done? ==> requests == [Read, Write(AppendCategory(initial, c))]
    ensures added.Failed? ==> Read in requests
  {
    var remote := new RemoteFile(initial);
    var repo := new Repository(remote);
    added := repo.AddCategory(c, t0, saveAt);
    listed := repo.GetCategories(later);
    requests := remote.log;
  }

  /**
   * An add whose save fails has still edited the cached object: reads inside
   * the window see the category, and the next successful save of any other
   * edit stores it remotely.
   */
  method FailedSaveStaysVisible(initial: Document, c: Category, w: Weapon, t: int)
    returns (addCategory: Outcome, listed: Result<seq<Category>>, addWeapon: Outcome, stored: Document)
    ensures addCategory == Failed(SaveFailed) ==> listed == Ok(initial.categories + [c])
    ensures addCategory == Failed(SaveFailed) && addWeapon.Done? ==>
      stored == AppendWeapon(AppendCategory(initial, c), w)
    ensures addCategory.Failed? && addWeapon.Failed? ==> stored == initial
  {
    var remote := new RemoteFile(initial);
    var repo := new Repository(remote);
    addCategory := repo.AddCategory(c, t, t);
    listed := repo.GetCategories(t + 1);
    addWeapon := repo.AddWeapon(w, t + 2, t + 2);
    stored := remote.file;
  }

  const Pistols := Category("1", "Pistols", "pistols", "d", "i")
  const Glock := Weapon("10", "Glock", "glock", "1", 500.0, ["a.jpg"], None, "s", "f", map[])
  const OrderUrl := "https://t.me/x"

  /** The document after each write of `Walkthrough`. */
  const Start := Document([], [], Some(Settings(None)))
  const WithCategory := Document([Pistols], [], Some(Settings(None)))
  const WithWeapon := Document([Pistols], [Glock], Some(Settings(None)))
  const WithUrl := Document([Pistols], [Glock], Some(Settings(Some(OrderUrl))))
  const WithoutCategory := Document([], [Glock], Some(Settings(Some(OrderUrl))))

  /** `repo` holds `d` in its cache, fetched or saved at `t`, so reads at `t` are served from it. */
  predicate Warm(repo: Repository, d: Document, t: int)
    reads repo, repo.dataCache
  {
    repo.dataCache != null && repo.dataCache.Value() == d && repo.cacheTime == t
  }

  /**
   * Starting from `{categories: [], weapons: [], settings: {}}`, all at one
   * instant: add a category and a weapon in it, list the category, set the
   * order URL, read the settings, delete the category and list it again,
   * stopping at the first write that fails. When every write returned, the
   * listing holds the weapon both before and after the delete (there is no
   * cascade) and the settings hold the new URL.
   */
  method Walkthrough(t: int)
    returns (writes: seq<Outcome>, before: Result<seq<Weapon>>, settings: Result<Settings>,
             after: Result<seq<Weapon>>, stored: Document)
    ensures 1 <= |writes| <= 4
    ensures writes == [Done, Done, Done, Done] ==>
      && before == Ok([Glock]) && settings == Ok(Settings(Some(OrderUrl))) && after == Ok([Glock])
      && stored == WithoutCategory
  {
    before, settings, after := Err(FetchFailed), Err(FetchFailed), Err(FetchFailed);
    var remote := new RemoteFile(Start);
    var repo := new Repository(remote);
    stored := Start;
    var a := repo.AddCategory(Pistols, t, t);
    if a.Failed? {
      writes := [a];
      return;
    }
    var rest;
    rest, before, settings, after, stored := AfterFirstWrite(repo, t);
    writes := [a] + rest;
    assert writes[1..] == rest;
  }

  /** The rest of `Walkthrough`, once the category is stored and cached. */
  method AfterFirstWrite(repo: Repository, t: int)
    returns (writes: seq<Outcome>, before: Result<seq<Weapon>>, settings: Result<Settings>,
             after: Result<seq<Weapon>>, stored: Document)
    requires Warm(repo, WithCategory, t)
    modifies repo, repo.remote, repo.dataCache
    ensures 1 <= |writes| <= 3
    ensures writes == [Done, Done, Done] ==>
      && before == Ok([Glock]) && settings == Ok(Settings(Some(OrderUrl))) && after == Ok([Glock])
      && stored == WithoutCategory
  {
    before, settings, after := Err(FetchFailed), Err(FetchFailed), Err(FetchFailed);
    stored := WithCategory;
    var b := repo.AddWeapon(Glock, t, t);
    if b.Failed? {
      writes := [b];
      return;
    }
    assert Warm(repo, WithWeapon, t);
    before := repo.GetWeaponsByCategory("1", t);
    assert WeaponsByCategory([Glock], "1") == [Glock] by {
      assert [Glock][1..] == [];
    }
    var rest;
    rest, settings, after, stored := AfterSecondWrite(repo, t);
    writes := [b] + rest;
    assert writes[1..] == rest;
  }

  method AfterSecondWrite(repo: Repository, t: int)
    returns (writes: seq<Outcome>, settings: Result<Settings>, after: Result<seq<Weapon>>, stored: Document)
    requires Warm(repo, WithWeapon, t)
    modifies repo, repo.remote, repo.dataCache
    ensures 1 <= |writes| <= 2
    ensures writes == [Done, Done] ==>
      && settings == Ok(Settings(Some(OrderUrl))) && after == Ok([Glock]) && stored == WithoutCategory
  {
    settings, after := Err(FetchFailed), Err(FetchFailed);
    stored := WithWeapon;
    var c := repo.UpdateSettings(Settings(Some(OrderUrl)), t, t);
    if c.Failed? {
      writes := [c];
      return;
    }
    assert Warm(repo, WithUrl, t);
    settings := repo.GetSettings(t);
    var d := repo.DeleteCategory("1", t, t);
    writes := [c, d];
    if d.Done? {
      assert RemoveCategory(WithUrl, "1") == WithoutCategory by {
        assert [Pistols][1..] == [];
      }
      assert Warm(repo, WithoutCategory, t);
      after := repo.GetWeaponsByCategory("1", t);
      assert WeaponsByCategory([Glock], "1") == [Glock] by {
        assert [Glock][1..] == [];
      }
    }
    stored := repo.remote.file;
  }
}
