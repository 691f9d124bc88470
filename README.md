# KeeBook bookmark ingestion, modelled in Dafny

KeeBook is a KeePass plugin. It listens on a local HTTP port for "save this
page" requests from a browser extension and stores each page as an entry of
the group "Bookmarks (KeeBook)" directly under the database root. This
project models what happens to the database and to the plugin's settings
once a request has been received and its title and url decoded:

- `text.dfy` (`Text`): ordinal substring search, as `String.Contains` does it on well-formed text.
- `vault.dfy` (`Vault`): the part of the host database the plugin uses.
  `Entry` is a value with title, url, optional notes and icon. `PwGroup` is a
  class whose entry list is appended to in place. `RootGroup` is a class whose
  list of child groups is appended to in place. `FindGroup` is the root's
  lookup of a direct child by exact name.
- `settings.dfy` (`PluginSettings`): the three persisted flags as a
  `Settings` class whose fields the menu handlers flip, with `Flags` as the
  value they hold.
- `bookmarks.dfy` (`Bookmarks`): the pure rules. They cover the icon choice,
  the date note, the new entry, and the duplicate predicate. `AddBookmark`
  gives the bookmark group's entries after one request.
- `keebook.dfy` (`KeeBook`): the plugin object `KeeBookExt`. Its methods
  follow the C# ones. Each method's `ensures` ties the new database state to
  `AddBookmark` and the new settings to `Flags.Toggle`.

The plugin's code behaves as follows, and the model follows it:

- The code has no icon download, icon cache, tags or "last accessed" marker.
  Those features are not modelled.
- The code does no base64 or cipher decoding in the request path. The
  decoded title and url are inputs here.
- The title and url are always written, even when empty.
- The duplicate check is skipped, not run, when duplicate prevention is off.
- The icon parameter is ignored. Every new entry gets `LockOpen`, because
  `getEntryIcon` applies the secure-url rule to the constant `"https://"`.
- `isDuplicateEntry` itself calls `returnGroup`, so a duplicate check can
  create the bookmark group. The model keeps that.

## Model

| member | source | states |
|---|---|---|
| Text.Contains | KeeBook/KeeBook.cs:231 | true iff `sub` occurs at some position of `s` (ordinal, case-sensitive) |
| Bookmarks.GetSecureIcon | KeeBook/KeeBook.cs:229-236 | LockOpen iff the url contains "https://" anywhere, Star otherwise |
| Bookmarks.GetEntryIcon | KeeBook/KeeBook.cs:224-227 | whatever the icon argument, the result is LockOpen |
| Bookmarks.DateNote | KeeBook/KeeBook.cs:200-203 | the note splits back into the date, the line separator and "KeeBook", in that order |
| Bookmarks.NewEntry | KeeBook/KeeBook.cs:193-203 | the entry has the given title and url and icon LockOpen; its note is set iff the date is to be added, and is then the date note |
| Bookmarks.AddBookmark | KeeBook/KeeBook.cs:174-205 | entries unchanged when duplicates are prevented and the title/url pair exists; otherwise exactly the new entry appended after the old ones; afterwards the pair is always present |
| Bookmarks.AddBookmarkKeepsPrefix | KeeBook/KeeBook.cs:205 | every earlier entry stays in place and every pair present before is still present |
| Bookmarks.AddBookmarkIdempotent | KeeBook/KeeBook.cs:176-186 | after a pair was stored, a second request for it with duplicate prevention on leaves the entries unchanged, whatever its note |
| Bookmarks.AddBookmarkKeepsDistinct | KeeBook/KeeBook.cs:176-186 | with duplicate prevention on, a group with no two entries sharing title and url keeps that property |
| Bookmarks.AddBookmarkAccumulates | KeeBook/KeeBook.cs:176-205 | with duplicate prevention off, storing an existing pair adds a second entry for it |
| Vault.FindGroup | KeeBook/KeeBook.cs:259 | null iff no direct child has the name; otherwise the first child with that exact name |
| Vault.CountNamedZero | KeeBook/KeeBook.cs:259-260 | the lookup returns null exactly when no child carries the name |
| Vault.FindGroupAppend | KeeBook/KeeBook.cs:259-263 | attaching a group keeps an existing match and makes a missing one resolve to the new group |
| PluginSettings.Flags.Toggle | KeeBook/KeeBook.cs:239-253 | the chosen flag is negated and the other two are kept |
| PluginSettings.ToggleTwice | KeeBook/KeeBook.cs:239-253 | toggling the same flag twice restores the settings |
| PluginSettings.ToggleCommutes | KeeBook/KeeBook.cs:239-253 | toggles of different flags can be done in either order |
| Vault.PwGroup.AddEntry | KeeBook/KeeBook.cs:205 | appends the entry after the existing ones; nothing else changes |
| Vault.RootGroup.AddGroup | KeeBook/KeeBook.cs:263 | appends the group after the existing child groups; nothing else changes |
| KeeBook.KeeBookExt.BookmarkGroup | KeeBook/KeeBook.cs:258-259 | the group found is a child of the root named "Bookmarks (KeeBook)" |
| KeeBook.KeeBookExt.ReturnGroup | KeeBook/KeeBook.cs:256-267 | returns the existing first bookmark group with the root unchanged, or a fresh empty Star group appended as the last child; afterwards exactly one such group exists if at most one did |
| KeeBook.KeeBookExt.IsDuplicateEntry | KeeBook/KeeBook.cs:209-222 | true iff some entry of the bookmark group has exactly the title and url; entries unchanged, group created if absent |
| KeeBook.KeeBookExt.CreateNewBookmark | KeeBook/KeeBook.cs:174-207 | the bookmark group's entries become `AddBookmark` of the old ones; the root gains at most the one new group; no other group changes |
| KeeBook.KeeBookExt.CbShowMessageClick | KeeBook/KeeBook.cs:239-243 | the settings become the old ones with "show debug messages" toggled; no other field is writable |
| KeeBook.KeeBookExt.CbSetDateClick | KeeBook/KeeBook.cs:244-248 | the settings become the old ones with "date as note" toggled |
| KeeBook.KeeBookExt.CbPreventDuplicateClick | KeeBook/KeeBook.cs:249-253 | the settings become the old ones with "prevent duplicates" toggled |
| KeeBook.KeeBookExt.RequestHandler | KeeBook/KeeBook.cs:151-172 | once stopped, returns before any change; otherwise records the request url, fails without writing if title or url is absent, else stores the bookmark under the current settings, with the root keeping its groups and gaining at most the one new bookmark group |
| KeeBook.KeeBookExt.Terminate | KeeBook/KeeBook.cs:283-286 | raises the stop flag |

## Left out

- The HTTP listener, its thread, `EndGetContext` and query-string parsing are network I/O and concurrency. A request arrives as parameters, and an absent `t` or `u` value is `None`.
- `Uri.UnescapeDataString` is a library call. The decoded title and url are inputs. A missing value makes it throw; that is modelled as the `MissingParameter` result.
- The date functions (`UnixTime`, `ShortUtcDateIso8601`, `LongUtcDateIso8601`) depend on the clock and on library formatting. The formatted date is an opaque input string.
- `Environment.NewLine` depends on the platform. It is the constructor parameter `newLine`.
- `KeeBook/enc.cs` is a wrapper over the platform's AES and base64 routines. Nothing in the request path calls it.
- Message boxes, `UpdateUI`, menu construction in `Initialize`, and settings persistence (`saveSettings`) are UI or host calls. The extra `returnGroup` call made for `UpdateUI` is modelled; the UI refresh is not.
- KeeBook.KeeBookExt.Terminate: models only the stop flag. Stopping the listener, interrupting the thread, saving settings and exiting the process are I/O.
- Entry identity (UUID), creation times, and the in-memory protection flag of the notes string are host bookkeeping. Entries are values compared by their fields.
- An existing entry without a title or url field would make the duplicate scan throw. The model gives every entry both fields.
- Group names are constants, and the root is a class of its own. The plugin never renames a group and only looks at the root's direct children.
- `PwIcon` has only the two icons the plugin uses.
- Each request is modelled as running alone from start to finish. In the plugin nothing serializes two request callbacks, and the modal message box showing the icon value sits between the duplicate check and the append. So the duplicate-prevention guarantees (`AddBookmarkKeepsDistinct`, `AddBookmarkIdempotent`) hold only for requests that do not overlap.
- The model assumes one open database whose root group is `root` for the plugin's whole life. The plugin reads the host's current root on every lookup, so the database can change between requests. When no database is open, the lookup throws, the exception is caught, and nothing is stored; the model does not cover that case.
- Strings are sequences of Dafny characters, which are Unicode scalar values. .NET strings are UTF-16 code units and may hold lone surrogates. The substring search and the title/url comparisons agree with .NET's ordinal ones on well-formed text only.
