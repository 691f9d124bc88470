/**
 * The KeeBook plugin object: it finds or creates the bookmark group under the
 * database root, rejects duplicates when asked to, appends new bookmark
 * entries, flips its settings from the menu, and ignores requests once stopped.
 */
module KeeBook {
  import opened Vault
  import opened Bookmarks
  import opened PluginSettings

  /** How one call of the request handler ended. */
  datatype HandlerResult =
    | Ignored           // the plugin was already stopped
    | MissingParameter  // the title or url query value was absent, so decoding threw
    | Handled           // the bookmark request was passed on (stored or skipped as duplicate)

  class KeeBookExt {
    /** The root group of the open database. */
    const root: RootGroup
    /** The process-wide settings object. */
    const settings: Settings
    /** The platform's line separator. */
    const newLine: string
    var stopped: bool
    var lastUri: string

    /** The state right after the plugin is attached to a host. */
    constructor (root: RootGroup, settings: Settings, newLine: string)
      ensures this.root == root && this.settings == settings && this.newLine == newLine
      ensures !stopped && lastUri == ""
    {
      this.root := root;
      this.settings := settings;
      this.newLine := newLine;
      stopped := false;
      lastUri := "";
    }

    /** The bookmark group as the root's name lookup finds it now (null if absent). */
    function BookmarkGroup(): (g: PwGroup?)
      reads root
      ensures g != null ==> g in root.groups && g.name == GroupName
    {
      FindGroupMember(root.groups, GroupName);
      FindGroup(root.groups, GroupName)
    }

    /** The entries of the bookmark group; empty while there is no such group. */
    function BookmarkEntries(): seq<Entry>
      reads root, root.groups
    {
      var g := BookmarkGroup();
      if g == null then [] else g.entries
    }

    /**
     * Returns the first group named "Bookmarks (KeeBook)" directly under the
     * root; when there is none, creates an empty one with the Star icon,
     * attaches it as the last child and returns it.
     */
    method ReturnGroup() returns (g: PwGroup)
      modifies root`groups
      ensures BookmarkGroup() == g
      ensures old(BookmarkGroup()) != null ==> g == old(BookmarkGroup()) && root.groups == old(root.groups)
      ensures old(BookmarkGroup()) == null ==>
        fresh(g) && g.icon == Star && g.entries == [] && root.groups == old(root.groups) + [g]
      ensures CountNamed(root.groups, GroupName) == if old(CountNamed(root.groups, GroupName)) == 0 then 1 else old(CountNamed(root.groups, GroupName))
    {
      CountNamedZero(root.groups, GroupName);
      var found := FindGroup(root.groups, GroupName);
      if found == null {
        g := new PwGroup(GroupName, Star);
        FindGroupAppend(root.groups, g, GroupName);
        root.AddGroup(g);
      } else {
        g := found;
      }
    }

    /**
     * Looks the bookmark group up (creating it if absent) and scans its
     * entries in order; true iff one has exactly this title and url.
     */
    method IsDuplicateEntry(title: string, url: string) returns (dup: bool)
      modifies root`groups
      ensures BookmarkGroup() != null
      ensures old(BookmarkGroup()) != null ==> BookmarkGroup() == old(BookmarkGroup()) && root.groups == old(root.groups)
      ensures old(BookmarkGroup()) == null ==>
        fresh(BookmarkGroup()) && BookmarkGroup().icon == Star && BookmarkGroup().entries == [] &&
        root.groups == old(root.groups) + [BookmarkGroup()]
      ensures BookmarkEntries() == old(BookmarkEntries())
      ensures dup <==> HasBookmark(BookmarkEntries(), title, url)
    {
      var gr := ReturnGroup();
      var entries := gr.entries;
      var i := 0;
      while i < |entries|
        invariant 0 <= i <= |entries|
        invariant forall j :: 0 <= j < i ==> !Matches(entries[j], title, url)
      {
        if url == entries[i].url && title == entries[i].title {
          return true;
        }
        i := i + 1;
      }
      return false;
    }

    /**
     * Stores one bookmark. When `checkDuplicate` is set and the bookmark group
     * already has an entry with this title and url, nothing is added.
     * Otherwise one entry is appended to the bookmark group (created first if
     * absent), with a date note when `addUtcDate` is set.
     */
    method CreateNewBookmark(title: string, url: string, icon: Option<string>, addUtcDate: bool, checkDuplicate: bool, date: string)
      modifies root`groups, root.groups
      ensures BookmarkGroup() != null
      ensures old(BookmarkGroup()) != null ==> BookmarkGroup() == old(BookmarkGroup()) && root.groups == old(root.groups)
      ensures old(BookmarkGroup()) == null ==>
        fresh(BookmarkGroup()) && BookmarkGroup().icon == Star && root.groups == old(root.groups) + [BookmarkGroup()]
      ensures BookmarkEntries() == AddBookmark(old(BookmarkEntries()), NewEntry(title, url, icon, addUtcDate, date, newLine), checkDuplicate)
      ensures forall h :: h in old(root.groups) && h != BookmarkGroup() ==> h.entries == old(h.entries)
    {
      if checkDuplicate {
        var dup := IsDuplicateEntry(title, url);
        if dup {
          return;
        }
      }
      var pwgroup := ReturnGroup();
      var pwe := NewEntry(title, url, icon, addUtcDate, date, newLine);
      pwgroup.AddEntry(pwe);
      // The host's view is refreshed on the bookmark group, looked up once more.
      var _ := ReturnGroup();
    }

    /** Menu handler: negates "show debug messages", nothing else. */
    method CbShowMessageClick()
      modifies settings`debugMessage
      ensures settings.Current() == old(settings.Current()).Toggle(DebugMessage)
    {
      settings.debugMessage := !settings.debugMessage;
    }

    /** Menu handler: negates "set UTC date as note", nothing else. */
    method CbSetDateClick()
      modifies settings`dateAsNote
      ensures settings.Current() == old(settings.Current()).Toggle(DateAsNote)
    {
      settings.dateAsNote := !settings.dateAsNote;
    }

    /** Menu handler: negates "prevent adding duplicate entries", nothing else. */
    method CbPreventDuplicateClick()
      modifies settings`preventDuplicate
      ensures settings.Current() == old(settings.Current()).Toggle(PreventDuplicate)
    {
      settings.preventDuplicate := !settings.preventDuplicate;
    }

    /**
     * Handles one decoded request. Once stopped it returns before touching
     * anything. Otherwise it records the request url, fails when the title or
     * url query value is absent, and else stores the bookmark under the
     * settings as they are at this moment.
     */
    method RequestHandler(requestUrl: string, title: Option<string>, url: Option<string>, icon: Option<string>, date: string)
      returns (result: HandlerResult)
      modifies this`lastUri, root`groups, root.groups
      ensures result == Ignored <==> stopped
      ensures result == MissingParameter <==> !stopped && (title.None? || url.None?)
      ensures result != Handled ==> root.groups == old(root.groups) && forall h :: h in root.groups ==> h.entries == old(h.entries)
      ensures stopped ==> lastUri == old(lastUri)
      ensures !stopped ==> lastUri == requestUrl
      ensures result == Handled ==> BookmarkGroup() != null
      ensures result == Handled && old(BookmarkGroup()) != null ==>
        BookmarkGroup() == old(BookmarkGroup()) && root.groups == old(root.groups)
      ensures result == Handled && old(BookmarkGroup()) == null ==>
        fresh(BookmarkGroup()) && BookmarkGroup().icon == Star && root.groups == old(root.groups) + [BookmarkGroup()]
      ensures result == Handled ==>
        var e := NewEntry(title.value, url.value, icon, old(settings.dateAsNote), date, newLine);
        BookmarkEntries() == AddBookmark(old(BookmarkEntries()), e, old(settings.preventDuplicate))
      ensures result == Handled ==> forall h :: h in old(root.groups) && h != BookmarkGroup() ==> h.entries == old(h.entries)
    {
      if stopped {
        return Ignored;
      }
      lastUri := requestUrl;
      if title.None? || url.None? {
        return MissingParameter;
      }
      CreateNewBookmark(title.value, url.value, icon, settings.dateAsNote, settings.preventDuplicate, date);
      return Handled;
    }

    /** Shutdown: raises the stop flag that every later request checks first. */
    method Terminate()
      modifies this`stopped
      ensures stopped
    {
      stopped := true;
    }
  }
}
