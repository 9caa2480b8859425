# Little Lemon: menu search and profile store, in Dafny

Little Lemon is a small restaurant app for iOS. Under its screens sit two pieces of logic, and this project models and proves both.

- **Menu.** The main screen lists a fixed catalog of seven dishes and drinks. Each belongs to one of four categories. The screen narrows the catalog in two stages:
  - it keeps the items of the selected category;
  - then, only when the search text is not empty, it keeps the items whose lowercased name or lowercased description contains the lowercased search text.
  - Modules `Text` (`text.dfy`) and `Menu` (`menu.dfy`) model this as pure functions over sequences.
- **Profile.** The profile screen edits a user profile in place: four text fields and four notification flags.
  - "Log out" resets the profile and deletes it from the key-value store (`UserDefaults`) under the key `"personalInfo"`.
  - Leaving the screen saves the profile under that key.
  - `loadPersonalInfo` reads it back.
  - Module `Profile` (`profile.dfy`) holds the pure part: the records, their defaults, the stored text form with its decoder, and the store functions.
  - Module `Session` (`session.dfy`) holds the state that changes: the store and the screen are classes whose methods update their fields.
  - `Wrappers` (`wrappers.dfy`) holds the `Option` type.

Main results:
- **The two-stage listing is one order-preserving filter** by "has the selected category and, for a non-empty search text, matches it".
  - It is sound and complete, down to multiplicities.
  - It is a subsequence of the catalog and of the category stage.
  - It is the identity on the category stage when the search text is empty.
  - It depends on the search text only through its lowercase form.
- **The sample catalog gives the listings the app shows:**
  - starters when the screen opens;
  - the two drinks, which can match only by name;
  - "pasta" among the mains finds the pasta alone;
  - "salad" among the mains finds nothing.
- **The stored form round-trips.** Decoding the stored form of a profile gives the profile back, and the decoder accepts nothing else. So a save followed by a load returns the saved profile, and a load immediately after a delete or after the "Log out" button's own steps returns nothing. Leaving the screen after logging out saves the cleared profile again (see Findings).
- **Screen actions change only what they should.** A checkbox tap flips one flag and leaves every other part of the profile unchanged, and two taps cancel out. A reset gives the default profile whatever came before.

## Model

Source paths are relative to the repository root. `MainScreen.swift`, `PersonalInformation.swift` and `AuthorizationForm.swift` all live in `MyApp_LittleLemon/MyApp_LittleLemon/`.

| member | source | states |
|---|---|---|
| Text.LowerChar | MyApp_LittleLemon/MyApp_LittleLemon/MainScreen.swift:32-33 | `lowercased()` on one character: 'A'..'Z' go to 'a'..'z' (code point + 32), every other character is kept, and no capital remains |
| Text.Lower | MyApp_LittleLemon/MyApp_LittleLemon/MainScreen.swift:32-33 | lowercasing a string keeps its length |
| Text.LowerIdempotent | MyApp_LittleLemon/MyApp_LittleLemon/MainScreen.swift:32-33 | lowercasing an already lowercased text changes nothing |
| Text.LowerEmpty | MyApp_LittleLemon/MyApp_LittleLemon/MainScreen.swift:30-33 | a text lowercases to the empty string exactly when it is empty, so testing the raw search text for emptiness agrees with testing its lowercase |
| Text.LowerAppend | MyApp_LittleLemon/MyApp_LittleLemon/MainScreen.swift:32-33 | lowercasing distributes over concatenation |
| Text.Contains | MyApp_LittleLemon/MyApp_LittleLemon/MainScreen.swift:32-33 | the substring test behind `contains`: the empty query occurs in every text, and a query longer than the text occurs nowhere in it |
| Text.ContainsTrivial | MyApp_LittleLemon/MyApp_LittleLemon/MainScreen.swift:32-33 | the model's `Contains` holds for the empty query and for a text searched for itself (the source never reaches `contains` with an empty query, which line 30 guards) |
| Text.ContainsChar | MyApp_LittleLemon/MyApp_LittleLemon/MainScreen.swift:32-33 | every character of a contained query is a character of the text |
| Text.LowerLacks | MyApp_LittleLemon/MyApp_LittleLemon/MainScreen.swift:32-33 | a query character that no text character lowercases to rules the match out |
| Text.Separated | MyApp_LittleLemon/MyApp_LittleLemon/MainScreen.swift:32-33 | a character the query lacks splits the search: the query occurs in `a + [c] + b` iff it occurs in `a` or in `b` |
| Menu.Filter | MyApp_LittleLemon/MyApp_LittleLemon/MainScreen.swift:25-27 | `filter` never returns more elements than it is given |
| Menu.FilterSound | MyApp_LittleLemon/MyApp_LittleLemon/MainScreen.swift:25-27 | every element `filter` returns is an input element satisfying the closure |
| Menu.FilterCounts | MyApp_LittleLemon/MyApp_LittleLemon/MainScreen.swift:25-27 | each value occurs in `filter`'s result as often as in its input if it satisfies the closure, and not at all otherwise |
| Menu.FilterMembers | MyApp_LittleLemon/MyApp_LittleLemon/MainScreen.swift:25-27 | an element is in `filter`'s result iff it is in the input and satisfies the closure |
| Menu.FilterComplete | MyApp_LittleLemon/MyApp_LittleLemon/MainScreen.swift:25-27 | every input element satisfying the closure is kept |
| Menu.FilterIsSubsequence | MyApp_LittleLemon/MyApp_LittleLemon/MainScreen.swift:25-27 | `filter` keeps the input order: its result is a subsequence of the input |
| Menu.FilterAll | MyApp_LittleLemon/MyApp_LittleLemon/MainScreen.swift:25-27 | when every element satisfies the closure, `filter` returns its input unchanged |
| Menu.FilterSame | MyApp_LittleLemon/MyApp_LittleLemon/MainScreen.swift:31-34 | two closures that agree on the input filter it alike |
| Menu.FilterTwice | MyApp_LittleLemon/MyApp_LittleLemon/MainScreen.swift:22-35 | filtering by one closure and then by a second is filtering once by their conjunction |
| Menu.ByCategory | MyApp_LittleLemon/MyApp_LittleLemon/MainScreen.swift:25-27 | stage 1 keeps an item iff it is in the input with the selected category, in input order |
| Menu.Matches | MyApp_LittleLemon/MyApp_LittleLemon/MainScreen.swift:31-34 | the search closure: the lowercased query in the lowercased name or description; the empty query matches every item, and a query longer than both name and description matches none |
| Menu.BySearch | MyApp_LittleLemon/MyApp_LittleLemon/MainScreen.swift:30-35 | stage 2 returns its input unchanged for an empty query; otherwise it keeps an item iff it matches, in input order |
| Menu.Filtered | MyApp_LittleLemon/MyApp_LittleLemon/MainScreen.swift:21-38 | the two stages over any list: an item is in the result iff it is in the input, has the selected category and, for a non-empty search text, matches it |
| Menu.FilteredMenuItems | MyApp_LittleLemon/MyApp_LittleLemon/MainScreen.swift:21-38 | `filteredMenuItems` is the catalog filtered once by "selected category and (empty search text or match)", so it lists exactly those catalog items |
| Menu.FilteredIsFilter | MyApp_LittleLemon/MyApp_LittleLemon/MainScreen.swift:21-38 | the category stage followed by the conditional search stage is one filter by "selected category and (empty search text or match)" |
| Menu.FilteredSound | MyApp_LittleLemon/MyApp_LittleLemon/MainScreen.swift:21-38 | every listed item is in the input, has the selected category and, for a non-empty search text, has the lowercased text in its lowercased name or description |
| Menu.FilteredCounts | MyApp_LittleLemon/MyApp_LittleLemon/MainScreen.swift:21-38 | an item that should be listed appears as often as in the input; any other item does not appear |
| Menu.FilteredComplete | MyApp_LittleLemon/MyApp_LittleLemon/MainScreen.swift:21-38 | every input item of the selected category that matches (or any such item, for an empty search text) is listed |
| Menu.FilteredOrder | MyApp_LittleLemon/MyApp_LittleLemon/MainScreen.swift:22-37 | the listing is a subsequence of the catalog, and of what the category stage kept: the search never adds or reorders items |
| Menu.FilteredEmptySearch | MyApp_LittleLemon/MyApp_LittleLemon/MainScreen.swift:21-30 | with an empty search text the listing is exactly the category stage, and an item is listed iff it is in the input with the selected category |
| Menu.FilteredCaseInsensitive | MyApp_LittleLemon/MyApp_LittleLemon/MainScreen.swift:32-33 | two search texts with the same lowercase form ("PASTA", "pasta") give the same listing |
| Menu.MatchesByNameOnly | MyApp_LittleLemon/MyApp_LittleLemon/MainScreen.swift:31-34 | an item with an empty description matches a non-empty search text iff its lowercased name contains it |
| Menu.CatalogByCategory | MyApp_LittleLemon/MyApp_LittleLemon/MainScreen.swift:199-241 | the catalog's items by category, in catalog order: starters Greek Salad, Bruschetta; mains Grilled Fish, Pasta; dessert Lemon Dessert; drinks Whiskey, Lemonade |
| Menu.InitialListing | MyApp_LittleLemon/MyApp_LittleLemon/MainScreen.swift:18-19 | the screen opens (starters, empty search text) on Greek Salad and Bruschetta |
| Menu.DrinksListing | MyApp_LittleLemon/MyApp_LittleLemon/MainScreen.swift:229-239 | unsearched drinks are Whiskey then Lemonade; a searched drink is listed only through its name |
| Menu.PastaMatchesPasta | MyApp_LittleLemon/MyApp_LittleLemon/MainScreen.swift:218-221 | the pasta matches "pasta" |
| Menu.GrilledFishLacksPasta | MyApp_LittleLemon/MyApp_LittleLemon/MainScreen.swift:212-216 | the grilled fish does not match "pasta" |
| Menu.GrilledFishLacksSalad | MyApp_LittleLemon/MyApp_LittleLemon/MainScreen.swift:212-216 | the grilled fish does not match "salad" |
| Menu.PastaLacksSalad | MyApp_LittleLemon/MyApp_LittleLemon/MainScreen.swift:218-221 | the pasta does not match "salad" |
| Menu.MainsPasta | MyApp_LittleLemon/MyApp_LittleLemon/MainScreen.swift:212-221 | searching the mains for "pasta" lists the pasta alone |
| Menu.MainsSalad | MyApp_LittleLemon/MyApp_LittleLemon/MainScreen.swift:212-221 | searching the mains for "salad" lists nothing (the screen's "No items found" case) |
| Profile.DefaultPreferences | MyApp_LittleLemon/MyApp_LittleLemon/PersonalInformation.swift:12-17 | the default notification preferences have all four flags off |
| Profile.DefaultInfo | MyApp_LittleLemon/MyApp_LittleLemon/PersonalInformation.swift:11-23 | the default profile has all four text fields empty and the default preferences |
| Profile.Flip | MyApp_LittleLemon/MyApp_LittleLemon/PersonalInformation.swift:158 | `toggle()` on one flag inverts that flag and keeps the other three |
| Profile.FlipTwice | MyApp_LittleLemon/MyApp_LittleLemon/PersonalInformation.swift:158 | two taps on the same checkbox restore the preferences |
| Profile.FlipCommutes | MyApp_LittleLemon/MyApp_LittleLemon/PersonalInformation.swift:157-193 | taps on two checkboxes give the same preferences in either order |
| Profile.Encode | MyApp_LittleLemon/MyApp_LittleLemon/PersonalInformation.swift:40 | encoding is total: every profile has a stored form, a JSON-style object opening with a brace; `DecodeEncode` and `EncodeDecode` state that `Decode` inverts it |
| Profile.Decode | MyApp_LittleLemon/MyApp_LittleLemon/PersonalInformation.swift:47 | decoding may fail; a text it accepts opens with a brace; `EncodeDecode` states it accepts exactly stored forms |
| Profile.DecodeEncode | MyApp_LittleLemon/MyApp_LittleLemon/PersonalInformation.swift:38-51 | decoding the stored form of any profile gives that profile back |
| Profile.EncodeDecode | MyApp_LittleLemon/MyApp_LittleLemon/PersonalInformation.swift:45-51 | a text that decodes to a profile is exactly that profile's stored form |
| Profile.Saved | MyApp_LittleLemon/MyApp_LittleLemon/PersonalInformation.swift:38-43 | after `save` the key holds the profile's stored form, overwriting what it held; no other key is added, removed or changed |
| Profile.Deleted | MyApp_LittleLemon/MyApp_LittleLemon/PersonalInformation.swift:34-36 | after `deletePersonaInfo` the key is absent; no other key is added, removed or changed |
| Profile.LoadPersonalInfo | MyApp_LittleLemon/MyApp_LittleLemon/PersonalInformation.swift:45-51 | nil when the key is absent; a loaded profile is exactly the one whose stored form the key holds; the store is only read |
| Profile.LoadSaved | MyApp_LittleLemon/MyApp_LittleLemon/PersonalInformation.swift:38-51 | a load after a save returns the saved profile |
| Profile.LoadDeleted | MyApp_LittleLemon/MyApp_LittleLemon/PersonalInformation.swift:34-51 | a load after a delete returns nil, whatever was saved before |
| Profile.LoadRejectsForeignData | MyApp_LittleLemon/MyApp_LittleLemon/PersonalInformation.swift:45-51 | a load returns nil when the key holds text that is not a stored profile (here: not opening with a brace) |
| Profile.SaveOverwrites | MyApp_LittleLemon/MyApp_LittleLemon/PersonalInformation.swift:38-43 | a second save replaces the first entirely |
| Profile.DeleteAfterSave | MyApp_LittleLemon/MyApp_LittleLemon/PersonalInformation.swift:34-43 | a delete undoes any save before it |
| Profile.DeleteIdempotent | MyApp_LittleLemon/MyApp_LittleLemon/PersonalInformation.swift:34-36 | deleting twice is deleting once |
| Session.UserDefaults.Set | MyApp_LittleLemon/MyApp_LittleLemon/PersonalInformation.swift:41 | `set(_:forKey:)` makes the key hold the value and changes nothing else |
| Session.UserDefaults.RemoveObject | MyApp_LittleLemon/MyApp_LittleLemon/PersonalInformation.swift:35 | `removeObject(forKey:)` removes the key, if present, and changes nothing else |
| Session.Save | MyApp_LittleLemon/MyApp_LittleLemon/PersonalInformation.swift:38-43 | the store afterwards is `Saved` of the store before |
| Session.DeletePersonaInfo | MyApp_LittleLemon/MyApp_LittleLemon/PersonalInformation.swift:34-36 | the store afterwards is `Deleted` of the store before |
| Session.PersonalInformationView.constructor | MyApp_LittleLemon/MyApp_LittleLemon/AuthorizationForm.swift:15 | a session starts from the default profile |
| Session.PersonalInformationView.Reset | MyApp_LittleLemon/MyApp_LittleLemon/PersonalInformation.swift:25-31 | after `reset()` the profile is the default profile, whatever it was, so resetting twice is resetting once |
| Session.PersonalInformationView.EditFirstName | MyApp_LittleLemon/MyApp_LittleLemon/PersonalInformation.swift:128 | the "First name" field sets the first name and nothing else |
| Session.PersonalInformationView.EditLastName | MyApp_LittleLemon/MyApp_LittleLemon/PersonalInformation.swift:133 | the "Last name" field sets the last name and nothing else |
| Session.PersonalInformationView.EditEmail | MyApp_LittleLemon/MyApp_LittleLemon/PersonalInformation.swift:138 | the "Email" field sets the email and nothing else |
| Session.PersonalInformationView.EditPhoneNumber | MyApp_LittleLemon/MyApp_LittleLemon/PersonalInformation.swift:144 | the "Phone number" field sets the phone number and nothing else |
| Session.PersonalInformationView.ToggleOrderStatuses | MyApp_LittleLemon/MyApp_LittleLemon/PersonalInformation.swift:158 | the tap flips `orderStatuses` alone; the strings and the other flags are unchanged |
| Session.PersonalInformationView.TogglePasswordChanges | MyApp_LittleLemon/MyApp_LittleLemon/PersonalInformation.swift:169 | the tap flips `passwordChanges` alone |
| Session.PersonalInformationView.ToggleSpecialOffers | MyApp_LittleLemon/MyApp_LittleLemon/PersonalInformation.swift:181 | the tap flips `specialOffers` alone |
| Session.PersonalInformationView.ToggleNewsletter | MyApp_LittleLemon/MyApp_LittleLemon/PersonalInformation.swift:192 | the tap flips `newsletter` alone |
| Session.PersonalInformationView.LogOut | MyApp_LittleLemon/MyApp_LittleLemon/PersonalInformation.swift:197-199 | the button's reset and delete leave the default profile and a store without the key, so a load immediately afterwards returns nil |
| Session.PersonalInformationView.OnDisappear | MyApp_LittleLemon/MyApp_LittleLemon/PersonalInformation.swift:231-233 | leaving the screen saves the current profile, and a later load returns it |
| Session.PersonalInformationView.LogOutThenLeave | MyApp_LittleLemon/MyApp_LittleLemon/PersonalInformation.swift:197-233 | "Log out" as the app runs it, reset and delete followed by the dismissal's save on disappear: the key ends holding the default profile, and a load returns it |
| Session.LogOutThenLeaveLoadsDefault | MyApp_LittleLemon/MyApp_LittleLemon/PersonalInformation.swift:197-233 | after logging out and leaving, a load returns the default profile where a load right after the button's steps returns nil |
| Session.PersonalInformationView.LogOutDeletingLast | MyApp_LittleLemon/MyApp_LittleLemon/PersonalInformation.swift:197-233 | log out with the delete after the save on leaving: the store ends without the key, exactly as after the button's own steps, and a later load returns nil |

## Left out

- Screen layout, styling, images and the empty "Change", "Remove" and "Discard changes" buttons: they are presentation only, with no behaviour.
- Navigation: `dismiss()`, the back button and the "Save changes" link are left out. The save that leaving the screen triggers is modelled as `OnDisappear`.
- AuthorizationForm.swift is left out apart from the default profile a session starts from.
- `MenuItem.id`: it is a random `UUID` that plays no part in filtering. `price` is kept as uninterpreted text, because the app never computes with it.
- Text.LowerChar: lowercasing covers ASCII only. Swift's `lowercased()` is Unicode-aware, so it also maps non-ASCII capitals, which this model leaves unchanged. `contains` is modelled as a plain substring test on characters, with no Unicode normalisation.
- Profile.Encode: the stored form is this model's own JSON-style text, not Foundation's `JSONEncoder` output.
  - Keys come in declaration order.
  - There is no whitespace.
  - Only `\"` and `\\` are escaped.
- Profile.Decode is strict: it accepts exactly the texts `Encode` produces. Foundation's `JSONDecoder` also accepts other key orders, whitespace and escapes; this model refuses them, so a load returns nil for them here.
- Profile.Encode and Profile.Decode: their own contracts state only that a stored form opens with a brace. That each inverts the other is stated by `DecodeEncode` and `EncodeDecode`, because a function's contract cannot rest on a lemma about that same function.
- Session.Save: the model has no branch for the source's silent no-op when encoding fails. Encoding a record of strings and booleans cannot fail, so that branch never runs.
- Persistence across launches and the rest of `UserDefaults` are left out: typed accessors, synchronisation, and other apps' domains. The store is one map from keys to text.
- None of MainScreen.swift, PersonalInformation.swift or AuthorizationForm.swift calls `loadPersonalInfo`. A session starts from the default profile (AuthorizationForm.swift:15), not from a loaded one, and the model follows that. `Profile.LoadPersonalInfo` is modelled as an operation with no caller.
- The catalog's longer descriptions are written in the Dafny source as literals joined at a space. The strings are the catalog's own, unchanged.

## Findings

| source | as written | input that shows it | evidently intended | confidence | as-written member | corrected member |
|---|---|---|---|---|---|---|
| MyApp_LittleLemon/MyApp_LittleLemon/PersonalInformation.swift:197-233 | "Log out" resets the bound profile and deletes the key, then dismisses the screen; the screen's `.onDisappear` then saves the cleared profile, so the key holds the stored form of the default profile | any store, say one holding a saved profile with first name "Ann": log out, and a later load returns the default profile, not nil | after logging out the store holds no profile and a load returns nil | not executed | Session.PersonalInformationView.LogOutThenLeave | Session.PersonalInformationView.LogOutDeletingLast |
