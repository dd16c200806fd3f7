# Photo storage of a portfolio app, modelled in Dafny

The app keeps the photos a user picks as JPEG files in its private Documents
directory. `PhotoStorage` addresses a photo either by a (tab, slot) pair of the
home screen's gallery or by the single profile photo. Each identity has a fixed
file name: `tab_{tab}_slot_{slot}.jpg` or `profile_photo.jpg`. The store can
save, load and delete one photo, and can bulk-load the whole tab x slot grid.

The model has two modules:

- `PhotoNames` (`photo_names.dfy`) covers identities and file names. It renders
  integers the way Swift's `"\(i)"` does: decimal digits, no leading zeros, and
  a `-` for negatives. It also has `ParseFileName`, which recovers the identity
  from a file name. The round trip `ParseFileName(FileName(k)) == Some(k)` is
  proved for every identity, so the naming never aliases two identities. In
  particular, no slot file is ever named like the profile photo.
- `PhotoStorage` (`photo_storage.dfy`) covers the store itself. The class
  `PhotoStore` holds the directory as `files: map<string, Bytes>` and the
  platform's JPEG codec as a pair of functions. Both directions of the codec
  may fail, and it is otherwise opaque. Saves and deletes are methods that
  reassign `files`. Loads and the grid loader are read-only functions. They
  are stated over pure functions of a directory value: `Load`, `Stored`,
  `Removed` and `Grid`. The lemmas relating several operations are proved
  about those functions.

A failed encode (`guard let` on the encoder's optional result) makes a save a
no-op. `try?` swallows write, read and delete failures. A failed write is a
nondeterministic choice: either the file is written or the directory stays as
it was. A read fails only when the file is absent, and the load then returns `None`;
unreadable files are under "## Left out". A load also returns `None` when the
file does not decode. A delete is
modelled as always succeeding; see the line on delete failures under
"## Left out".

## Model

| member | source | states |
|---|---|---|
| `PhotoNames.NatToString` | MyApp/Models/PhotoStorage.swift:12 | the decimal rendering of a number is non-empty and all digits; it is one character exactly when the number is below 10, and a rendering of 10 or more never starts with `0` |
| `PhotoNames.NatToStringRoundTrip` | MyApp/Models/PhotoStorage.swift:12 | reading the decimal rendering of n back as a number gives n |
| `PhotoNames.IntToString` | MyApp/Models/PhotoStorage.swift:12 | an interpolated Int is non-empty and never contains `_`, so it cannot be confused with the `_slot_` separator |
| `PhotoNames.IntToStringRoundTrip` | MyApp/Models/PhotoStorage.swift:12 | the interpolation of any Int, negative ones included, parses back to that Int |
| `PhotoNames.IndexOf` | MyApp/Models/PhotoStorage.swift:12 | the result is the position of the first occurrence of the character, or the length when there is none |
| `PhotoNames.FirstUnderscoreAfterTab` | MyApp/Models/PhotoStorage.swift:12 | in `{tab}_slot_{slot}`, the first `_` is the one that starts `_slot_` |
| `PhotoNames.PhotoFileName` | MyApp/Models/PhotoStorage.swift:11-13 | the name of a tab/slot photo starts with `tab_` and ends with `.jpg` (its exact form `tab_{tab}_slot_{slot}.jpg` is what the injectivity lemmas below use) |
| `PhotoNames.FileName` | MyApp/Models/PhotoStorage.swift:11-34 | every identity's file name ends with `.jpg`, and it starts with `t` exactly for tab/slot identities, so it is `profile_photo.jpg` only for the profile |
| `PhotoNames.ParseFileNameRoundTrip` | MyApp/Models/PhotoStorage.swift:11-34 | every file name the store uses, `tab_{tab}_slot_{slot}.jpg` or `profile_photo.jpg`, parses back to the identity it was built from |
| `PhotoNames.FileNameInjective` | MyApp/Models/PhotoStorage.swift:11-34 | two identities share a file name if and only if they are the same identity |
| `PhotoNames.PhotoFileNameInjective` | MyApp/Models/PhotoStorage.swift:11-13 | `tab_{t1}_slot_{s1}.jpg` equals `tab_{t2}_slot_{s2}.jpg` if and only if t1 = t2 and s1 = s2, so no two slots alias |
| `PhotoNames.ProfileFileNameDistinct` | MyApp/Models/PhotoStorage.swift:32-34 | no tab/slot file name equals `profile_photo.jpg` |
| `PhotoStorage.ReadFile` | MyApp/Models/PhotoStorage.swift:22 | reading a file yields its contents exactly when it exists in the directory |
| `PhotoStorage.Load` | MyApp/Models/PhotoStorage.swift:20-24 | a load is None when the key's file is absent, and otherwise is the decoding of that file, which is None when decoding fails |
| `PhotoStorage.Stored` | MyApp/Models/PhotoStorage.swift:15-18 | the directory after a save whose write succeeds: unchanged when encoding fails, otherwise the key's file is created or overwritten with the encoded bytes and every other file keeps its contents |
| `PhotoStorage.Removed` | MyApp/Models/PhotoStorage.swift:26-28 | the directory after a delete: the key's file name is gone, every other name is still present with its contents |
| `PhotoStorage.Grid` | MyApp/Models/PhotoStorage.swift:48-54 | the bulk load has tabCount rows of slotsPerTab entries, and entry [t][s] is the load of (t, s) |
| `PhotoStorage.PhotoStore.constructor` | MyApp/Models/PhotoStorage.swift:5-7 | a store works over a directory whose contents survive from earlier runs |
| `PhotoStorage.PhotoStore.Save` | MyApp/Models/PhotoStorage.swift:15-18 | a failed encode leaves the directory unchanged; otherwise the directory is either unchanged (a failed write) or has the key's file set to the encoded bytes, overwriting it, with every other file untouched |
| `PhotoStorage.PhotoStore.SavePhoto` | MyApp/Models/PhotoStorage.swift:15-18 | the save contract, bound to the file of (tab, slot) |
| `PhotoStorage.PhotoStore.LoadPhoto` | MyApp/Models/PhotoStorage.swift:20-24 | None when the slot's file is absent, else the decoding of its bytes; it reads the directory and changes nothing |
| `PhotoStorage.PhotoStore.DeletePhoto` | MyApp/Models/PhotoStorage.swift:26-28 | afterwards the slot's file is gone and every other file is unchanged; an absent file is not an error |
| `PhotoStorage.PhotoStore.SaveProfilePhoto` | MyApp/Models/PhotoStorage.swift:36-39 | the save contract, bound to `profile_photo.jpg` |
| `PhotoStorage.PhotoStore.LoadProfilePhoto` | MyApp/Models/PhotoStorage.swift:41-44 | None when `profile_photo.jpg` is absent, else the decoding of its bytes |
| `PhotoStorage.PhotoStore.LoadAllTabs` | MyApp/Models/PhotoStorage.swift:48-54 | defaults 4 x 6; exactly tabCount rows, each of slotsPerTab entries, entry [t][s] equal to LoadPhoto(t, s); reads only |
| `PhotoStorage.DefaultGridShape` | MyApp/Models/PhotoStorage.swift:48 | with the default arguments the bulk loader returns 4 rows of 6 entries |
| `PhotoStorage.StoredTouchesOneEntry` | MyApp/Models/PhotoStorage.swift:15-18 | a successful save leaves the presence and contents of every other file name unchanged |
| `PhotoStorage.RemovedTouchesOneEntry` | MyApp/Models/PhotoStorage.swift:26-28 | a delete leaves the presence and contents of every other file name unchanged |
| `PhotoStorage.LoadAfterSave` | MyApp/Models/PhotoStorage.swift:15-24 | after a successful save, a load of the same key returns the decoding of the encoded image |
| `PhotoStorage.LatestSaveWins` | MyApp/Models/PhotoStorage.swift:15-24 | after two saves to one key, a load reflects the second image and never the first |
| `PhotoStorage.SaveLeavesOtherKeys` | MyApp/Models/PhotoStorage.swift:11-44 | a save under one identity never changes the load of any other identity, profile included |
| `PhotoStorage.LoadAfterDelete` | MyApp/Models/PhotoStorage.swift:20-28 | after a delete, the key's file is absent and its load is None |
| `PhotoStorage.DeleteLeavesOtherKeys` | MyApp/Models/PhotoStorage.swift:11-44 | a delete of one identity never changes the load of any other identity |
| `PhotoStorage.DeleteIdempotent` | MyApp/Models/PhotoStorage.swift:26-28 | deleting twice gives the same directory as deleting once, and deleting an absent file changes nothing |
| `PhotoStorage.GridAfterSave` | MyApp/Models/PhotoStorage.swift:15-54 | a successful save to a cell inside the grid changes exactly that cell of the reloaded grid, to the decoded encoding of the image |
| `PhotoStorage.GridAfterSaveOutside` | MyApp/Models/PhotoStorage.swift:15-54 | a save to a (tab, slot) outside the grid, negative indices included, leaves the whole reloaded grid unchanged |
| `PhotoStorage.ProfileSaveLeavesGrid` | MyApp/Models/PhotoStorage.swift:36-54 | saving the profile photo never changes the reloaded grid |
| `PhotoStorage.OneSaveOneCell` | MyApp/Models/PhotoStorage.swift:48-54 | from an empty directory, one save to (2, 3) that decodes makes exactly that cell of the default 4 x 6 grid present |

## Left out

- Locating the Documents directory through `FileManager`. The store works on
  its `files` map instead.
- The JPEG codec's internals. Encode and decode are opaque, failable
  functions. The quality 0.85 is passed to the encoder. Nothing is claimed
  about pixel fidelity or dimensions.
- Read errors other than absence. A file that exists but cannot be read is
  treated as readable. In the source both cases give `nil`.
- Delete failures other than absence. `removeItem` is assumed to succeed on
  an existing file in the app's own directory. In the source any such error
  is swallowed.
- Partial or interrupted writes, and concurrent saves and loads. A write
  either replaces the whole file or does nothing.
- Swift's 64-bit `Int` range. Tab and slot indices are unbounded integers.
  Negative indices are kept and render with a `-`, as in Swift.
- `PhotoStorage.PhotoStore.LoadAllTabs` takes natural-number counts. In Swift,
  `0..<n` with a negative `n` traps at run time, so no result exists for
  negative counts.
- The SwiftUI screens, the photo picker, the share sheet, link opening and
  the colour theme. These are presentation code around the store.
