/**
 * The pure rules of bookmark ingestion: which icon an entry gets, what its
 * note says, when two entries count as duplicates, and what the bookmark
 * group holds after one bookmark request.
 */
module Bookmarks {
  import opened Text
  import opened Vault

  const ProductName: string := "KeeBook"
  /** Name of the group, directly under the database root, that holds the bookmarks. */
  const GroupName: string := "Bookmarks (" + ProductName + ")"
  const SecurePrefix: string := "https://"

  /** LockOpen for a url that contains "https://" anywhere, Star for any other. */
  function GetSecureIcon(url: string): (r: PwIcon)
    ensures r == LockOpen <==> exists i :: ContainsAt(url, SecurePrefix, i)
    ensures r == Star <==> !exists i :: ContainsAt(url, SecurePrefix, i)
  {
    if Contains(url, SecurePrefix) then LockOpen else Star
  }

  /**
   * The icon a new bookmark gets. The icon parameter of the request is
   * ignored: the secure rule is applied to the constant "https://".
   */
  function GetEntryIcon(icon: Option<string>): (r: PwIcon)
    ensures r == LockOpen
  {
    assert ContainsAt(SecurePrefix, SecurePrefix, 0);
    GetSecureIcon(SecurePrefix)
  }

  /** The note of a dated bookmark: the date, a line break, the product name. */
  function DateNote(date: string, newLine: string): (note: string)
    ensures |note| == |date| + |newLine| + |ProductName|
    ensures note[..|date|] == date
    ensures note[|date|..|date| + |newLine|] == newLine
    ensures note[|date| + |newLine|..] == ProductName
  {
    date + newLine + ProductName
  }

  /**
   * The entry a bookmark request creates: the given title and url, the
   * entry icon, and a note only when the date is to be recorded.
   */
  function NewEntry(title: string, url: string, icon: Option<string>, addUtcDate: bool, date: string, newLine: string): (e: Entry)
    ensures e.title == title && e.url == url && e.icon == LockOpen
    ensures e.notes.Some? <==> addUtcDate
    ensures addUtcDate ==> e.notes.value == DateNote(date, newLine)
  {
    Entry(title, url, if addUtcDate then Some(DateNote(date, newLine)) else None, GetEntryIcon(icon))
  }

  /** The entry has exactly this title and url (case-sensitive comparison). */
  predicate Matches(e: Entry, title: string, url: string) {
    e.title == title && e.url == url
  }

  /** Some entry of `entries` has exactly this title and url. */
  predicate HasBookmark(entries: seq<Entry>, title: string, url: string) {
    exists i :: 0 <= i < |entries| && Matches(entries[i], title, url)
  }

  /** No two entries of `entries` share both title and url. */
  predicate Distinct(entries: seq<Entry>) {
    forall i, j :: 0 <= i < j < |entries| ==> !Matches(entries[i], entries[j].title, entries[j].url)
  }

  /**
   * The bookmark group's entries after a request to store `e`: unchanged when
   * duplicates are prevented and one with the same title and url exists,
   * otherwise `e` appended after the existing entries.
   */
  function AddBookmark(entries: seq<Entry>, e: Entry, checkDuplicate: bool): (r: seq<Entry>)
    ensures checkDuplicate && HasBookmark(entries, e.title, e.url) ==> r == entries
    ensures !(checkDuplicate && HasBookmark(entries, e.title, e.url)) ==>
      |r| == |entries| + 1 && r[..|entries|] == entries && r[|entries|] == e
    ensures HasBookmark(r, e.title, e.url)
  {
    if checkDuplicate && HasBookmark(entries, e.title, e.url) then
      entries
    else
      assert Matches((entries + [e])[|entries|], e.title, e.url);
      entries + [e]
  }

  /** Nothing stored before a request is lost or reordered by it. */
  lemma AddBookmarkKeepsPrefix(entries: seq<Entry>, e: Entry, checkDuplicate: bool, t: string, u: string)
    ensures AddBookmark(entries, e, checkDuplicate)[..|entries|] == entries
    ensures HasBookmark(entries, t, u) ==> HasBookmark(AddBookmark(entries, e, checkDuplicate), t, u)
  {
  }

  /**
   * Once a title and url have been stored, a later request for the same pair
   * with duplicate prevention on changes nothing, whatever its note or icon.
   */
  lemma AddBookmarkIdempotent(entries: seq<Entry>, e: Entry, checkFirst: bool, again: Entry)
    requires again.title == e.title && again.url == e.url
    ensures AddBookmark(AddBookmark(entries, e, checkFirst), again, true) == AddBookmark(entries, e, checkFirst)
  {
  }

  /** With duplicate prevention on, a group without duplicates stays without duplicates. */
  lemma AddBookmarkKeepsDistinct(entries: seq<Entry>, e: Entry)
    requires Distinct(entries)
    ensures Distinct(AddBookmark(entries, e, true))
  {
  }

  /**
   * With duplicate prevention off, the check is skipped: storing a title and
   * url already present adds a second entry with both.
   */
  lemma AddBookmarkAccumulates(entries: seq<Entry>, e: Entry)
    requires HasBookmark(entries, e.title, e.url)
    ensures |AddBookmark(entries, e, false)| == |entries| + 1
    ensures !Distinct(AddBookmark(entries, e, false))
  {
  }
}
