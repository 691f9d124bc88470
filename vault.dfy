/**
 * The part of the host password database that the plugin touches: entries
 * with title, url, notes and icon, groups that own an ordered list of
 * entries, and the database root that owns an ordered list of groups.
 */
module Vault {

  datatype Option<T> = None | Some(value: T)

  /** The standard icons the plugin assigns (the host's icon set has more). */
  datatype PwIcon = Star | LockOpen

  /** One stored record; `notes` is None when the notes field was never set. */
  datatype Entry = Entry(title: string, url: string, notes: Option<string>, icon: PwIcon)

  /** A group of the database: its name and icon fixed, its entries appended to in place. */
  class PwGroup {
    const name: string
    const icon: PwIcon
    var entries: seq<Entry>

    constructor (name: string, icon: PwIcon)
      ensures this.name == name && this.icon == icon && entries == []
    {
      this.name := name;
      this.icon := icon;
      entries := [];
    }

    /** Appends `e` after every entry already in the group. */
    method AddEntry(e: Entry)
      modifies this`entries
      ensures entries == old(entries) + [e]
    {
      entries := entries + [e];
    }
  }

  /** The database root, whose direct child groups are searched by name. */
  class RootGroup {
    var groups: seq<PwGroup>

    constructor (groups: seq<PwGroup>)
      ensures this.groups == groups
    {
      this.groups := groups;
    }

    /** Attaches `g` as the last child group. */
    method AddGroup(g: PwGroup)
      modifies this`groups
      ensures groups == old(groups) + [g]
    {
      groups := groups + [g];
    }
  }

  /** No group of `gs` before position `i` is named `name`. */
  predicate NoneNamedBefore(gs: seq<PwGroup>, name: string, i: int)
    requires i <= |gs|
  {
    forall j :: 0 <= j < i ==> gs[j].name != name
  }

  /**
   * The first direct child named `name` (exact, case-sensitive comparison),
   * or null when there is none: the lookup the root performs without
   * creating anything.
   */
  function FindGroup(gs: seq<PwGroup>, name: string): (r: PwGroup?)
    ensures r == null <==> NoneNamedBefore(gs, name, |gs|)
    ensures r != null ==> r.name == name && exists i :: 0 <= i < |gs| && gs[i] == r && NoneNamedBefore(gs, name, i)
  {
    if |gs| == 0 then
      null
    else if gs[0].name == name then
      assert NoneNamedBefore(gs, name, 0);
      gs[0]
    else
      var r := FindGroup(gs[1..], name);
      assert NoneNamedBefore(gs[1..], name, |gs| - 1) ==> NoneNamedBefore(gs, name, |gs|);
      assert r != null ==> exists i :: 0 <= i < |gs| && gs[i] == r && NoneNamedBefore(gs, name, i) by {
        if r != null {
          var k :| 0 <= k < |gs| - 1 && gs[1..][k] == r && NoneNamedBefore(gs[1..], name, k);
          assert gs[k + 1] == r && NoneNamedBefore(gs, name, k + 1);
        }
      }
      r
  }

  /** A group found by name is one of the groups searched. */
  lemma FindGroupMember(gs: seq<PwGroup>, name: string)
    ensures FindGroup(gs, name) != null ==> FindGroup(gs, name) in gs
  {
  }

  /** Number of groups in `gs` named `name`. */
  function CountNamed(gs: seq<PwGroup>, name: string): nat
  {
    if |gs| == 0 then 0 else (if gs[|gs| - 1].name == name then 1 else 0) + CountNamed(gs[..|gs| - 1], name)
  }

  /** The lookup finds nothing exactly when no group carries the name. */
  lemma {:induction false} CountNamedZero(gs: seq<PwGroup>, name: string)
    ensures CountNamed(gs, name) == 0 <==> FindGroup(gs, name) == null
  {
    if |gs| > 0 {
      var init := gs[..|gs| - 1];
      CountNamedZero(init, name);
      assert NoneNamedBefore(gs, name, |gs|) <==> NoneNamedBefore(init, name, |init|) && gs[|gs| - 1].name != name;
    }
  }

  /**
   * Appending a group keeps the result of an earlier successful lookup, and
   * makes a lookup that found nothing find the new group when it carries the name.
   */
  lemma {:induction false} FindGroupAppend(gs: seq<PwGroup>, g: PwGroup, name: string)
    ensures FindGroup(gs + [g], name) ==
      if FindGroup(gs, name) != null then FindGroup(gs, name)
      else if g.name == name then g
      else null
  {
    var hs := gs + [g];
    var r := FindGroup(gs, name);
    if r != null {
      var i :| 0 <= i < |gs| && gs[i] == r && NoneNamedBefore(gs, name, i);
      var r' := FindGroup(hs, name);
      assert hs[i] == r && r.name == name;
      assert NoneNamedBefore(hs, name, i);
    } else {
      assert NoneNamedBefore(hs, name, |gs|);
      assert hs[|gs|] == g;
    }
  }
}
