/** Quick-access categories (src/context/CategoryContext.tsx): a list of
    category ids that the user toggles, and the split of the catalog's
    categories into those shown and those hidden. */
module Categories {
  import opened Types
  import Seqs

  /** Electronics and Fashion start in quick access. */
  const InitialQuickAccessIds: seq<string> := ["1", "2"]

  /** The filter callback `id => id !== categoryId`. */
  function OtherId(categoryId: string): string -> bool {
    (id: string) => id != categoryId
  }

  /** `toggleQuickAccess`: drop the id if present, else append it. */
  function ToggleQuickAccess(ids: seq<string>, categoryId: string): seq<string> {
    if categoryId in ids then Seqs.Filter(ids, OtherId(categoryId))
    else ids + [categoryId]
  }

  /** `isQuickAccess`. */
  predicate IsQuickAccess(ids: seq<string>, categoryId: string) {
    categoryId in ids
  }

  function InQuickAccess(ids: seq<string>): Category -> bool {
    (c: Category) => c.id in ids
  }

  function NotInQuickAccess(ids: seq<string>): Category -> bool {
    (c: Category) => c.id !in ids
  }

  function QuickAccessCategories(catalog: seq<Category>, ids: seq<string>): seq<Category> {
    Seqs.Filter(catalog, InQuickAccess(ids))
  }

  function HiddenCategories(catalog: seq<Category>, ids: seq<string>): seq<Category> {
    Seqs.Filter(catalog, NotInQuickAccess(ids))
  }

  predicate NoDuplicates(ids: seq<string>) {
    forall i, j :: 0 <= i < j < |ids| ==> ids[i] != ids[j]
  }

  /** A toggle flips `isQuickAccess` for the toggled id and for no other; a
      present id is removed with the others kept in order, an absent one goes
      to the end. */
  lemma ToggleFlips(ids: seq<string>, categoryId: string, other: string)
    ensures IsQuickAccess(ToggleQuickAccess(ids, categoryId), categoryId) <==> !IsQuickAccess(ids, categoryId)
    ensures other != categoryId ==>
      (IsQuickAccess(ToggleQuickAccess(ids, categoryId), other) <==> IsQuickAccess(ids, other))
    ensures categoryId in ids ==> Seqs.IsSubsequence(ToggleQuickAccess(ids, categoryId), ids)
    ensures categoryId !in ids ==> ToggleQuickAccess(ids, categoryId) == ids + [categoryId]
  {
    Seqs.FilterMembership(ids, OtherId(categoryId), categoryId);
    Seqs.FilterMembership(ids, OtherId(categoryId), other);
    Seqs.FilterIsSubsequence(ids, OtherId(categoryId));
  }

  /** Toggling the same id twice restores membership of every id (the id may
      come back at a different position). */
  lemma ToggleTwiceRestoresMembership(ids: seq<string>, categoryId: string, x: string)
    ensures x in ToggleQuickAccess(ToggleQuickAccess(ids, categoryId), categoryId) <==> x in ids
  {
    var once := ToggleQuickAccess(ids, categoryId);
    ToggleFlips(ids, categoryId, x);
    ToggleFlips(once, categoryId, x);
  }

  /** Toggling keeps the list free of duplicates. */
  lemma ToggleKeepsNoDuplicates(ids: seq<string>, categoryId: string)
    requires NoDuplicates(ids)
    ensures NoDuplicates(ToggleQuickAccess(ids, categoryId))
  {
    if categoryId in ids {
      FilterKeepsNoDuplicates(ids, OtherId(categoryId));
    }
  }

  lemma {:induction false} FilterKeepsNoDuplicates(ids: seq<string>, f: string -> bool)
    requires NoDuplicates(ids)
    ensures NoDuplicates(Seqs.Filter(ids, f))
  {
    if ids != [] {
      assert NoDuplicates(ids[1..]) by {
        forall i, j | 0 <= i < j < |ids[1..]| ensures ids[1..][i] != ids[1..][j] {
          assert ids[1..][i] == ids[i + 1] && ids[1..][j] == ids[j + 1];
        }
      }
      FilterKeepsNoDuplicates(ids[1..], f);
      var rest := Seqs.Filter(ids[1..], f);
      if f(ids[0]) {
        Seqs.FilterMembership(ids[1..], f, ids[0]);
        assert ids[0] !in ids[1..] by {
          forall k | 0 <= k < |ids[1..]| ensures ids[1..][k] != ids[0] {
            assert ids[1..][k] == ids[k + 1];
          }
        }
        assert Seqs.Filter(ids, f) == [ids[0]] + rest;
      } else {
        assert Seqs.Filter(ids, f) == rest;
      }
    }
  }

  /** A sequence of toggles from the initial list. */
  function RunToggles(ids: seq<string>, toggles: seq<string>): seq<string>
    decreases |toggles|
  {
    if toggles == [] then ids else RunToggles(ToggleQuickAccess(ids, toggles[0]), toggles[1..])
  }

  lemma {:induction false} RunTogglesKeepsNoDuplicates(ids: seq<string>, toggles: seq<string>)
    requires NoDuplicates(ids)
    ensures NoDuplicates(RunToggles(ids, toggles))
    decreases |toggles|
  {
    if toggles != [] {
      ToggleKeepsNoDuplicates(ids, toggles[0]);
      RunTogglesKeepsNoDuplicates(ToggleQuickAccess(ids, toggles[0]), toggles[1..]);
    }
  }

  /** The id list never holds an id twice, whatever the user toggles. */
  lemma ReachableHasNoDuplicates(toggles: seq<string>)
    ensures NoDuplicates(RunToggles(InitialQuickAccessIds, toggles))
  {
    RunTogglesKeepsNoDuplicates(InitialQuickAccessIds, toggles);
  }

  /** The shown and hidden categories split the catalog: every category goes
      to exactly one side according to its id, the sizes add up, the two
      together are the catalog as a multiset, and both keep catalog order. */
  lemma QuickAccessPartition(catalog: seq<Category>, ids: seq<string>, c: Category)
    ensures c in QuickAccessCategories(catalog, ids) <==> c in catalog && c.id in ids
    ensures c in HiddenCategories(catalog, ids) <==> c in catalog && c.id !in ids
    ensures |QuickAccessCategories(catalog, ids)| + |HiddenCategories(catalog, ids)| == |catalog|
    ensures multiset(QuickAccessCategories(catalog, ids)) + multiset(HiddenCategories(catalog, ids)) == multiset(catalog)
    ensures Seqs.IsSubsequence(QuickAccessCategories(catalog, ids), catalog)
    ensures Seqs.IsSubsequence(HiddenCategories(catalog, ids), catalog)
  {
    Seqs.FilterMembership(catalog, InQuickAccess(ids), c);
    Seqs.FilterMembership(catalog, NotInQuickAccess(ids), c);
    Seqs.FilterPartition(catalog, InQuickAccess(ids), NotInQuickAccess(ids));
    Seqs.FilterIsSubsequence(catalog, InQuickAccess(ids));
    Seqs.FilterIsSubsequence(catalog, NotInQuickAccess(ids));
  }
}
