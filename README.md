# Landing page with admin dashboard — a Dafny model

The system is a one-page professional site (hero, about, services, contact)
with an admin dashboard. Every text block, service and contact field lives in
a hosted store. The home page shows a content section only while one of its
blocks is visible. The dashboard is reserved for one configured admin
address. It offers these editors:

- content blocks, grouped by section;
- services: create, edit, delete, visibility, drag-and-drop order;
- per-section visibility;
- contact fields;
- the home page's SEO tags.

The public contact section reads the contact fields and adds a message form.

This project models the logic of those components and proves what they
promise. The remote store of each editor is a `map` from record id to record,
held in a field of the editor's class. Each store write is one step that
either succeeds or fails. A boolean parameter (`writeOk`, `reorderOk`)
chooses which. Handlers become methods on classes whose fields mirror the
component state. A handler with an observable state *during* its await is
split into a start method and a completion method at that await.

Files, one per source component, plus shared records:

| file | models |
|---|---|
| `records.dfy` | the stored entities (`SiteContent`, `Service`, `ContactInfo`, `SeoMetadata`), `Option`, status messages, the one-row store update |
| `services_reorder.dfy` | drag-and-drop reordering, bulk order save, visibility toggle |
| `services_editor.dfy` | the services edit buffer, create/update/delete, next order index |
| `section_visibility.dfy` | the section aggregate and the bulk section toggle |
| `home.dfy` | which blocks the home page renders |
| `content_editor.dfy` | grouping of blocks by section, the content edit buffer |
| `contact_editor.dfy` | field label/type/placeholder tables, display links, the value edit buffer |
| `contact_fields_editor.dfy` | per-field visibility and inline value edit, the trim guard |
| `seo_editor.dfy` | metadata/form sync, dirty flag, update-or-create save |
| `contact_section.dfy` | value lookup, contact links, social links, the visitor form |
| `content_hooks.dfy` | the `{data, loading, error}` fetch hooks |
| `auth.dfy` | the admin address check |
| `auth_context.dfy` | the authentication context state |
| `admin_dashboard.dfy` | the dashboard gate, tabs and sign-out |

A `refetch` call after a write has an outcome parameter too (`refetchOk`).
The hooks return `refetch` as a closure over a function that is scoped
inside their effect (src/hooks/useContent.ts:26, 50 and 74). So the model
never treats it as a working re-read: `refetchOk = false` means the call
threw. Three editors call it without `await` inside their `try`:
`ServicesEditor`, `ContentEditor` and `ContactEditor`. There a throw lands
in the `catch` after the editor was already closed. The model states that
outcome: the editor is idle and shows the error message. Where `refetch`
is awaited, its failure only keeps `hasChanges` set (SEO, reorder) or is
only logged (contact fields).

With the hooks as written (src/hooks/useContent.ts:26, 50 and 74), a
`refetch` from `useServices` always throws. So in the code the
`reorderOk && refetchOk` branch of
`ServicesReorder.ServicesReorderEditor.SaveOrder` is never taken: after a
successful reorder the save button stays showing. The same holds for every
other `refetchOk = true` branch. Those branches describe the intended
re-read, not code that can run.

The model follows the code as written, including two behaviours worth noting:

- The fetch hooks never clear `error`. A later successful fetch keeps the old
  error (`ContentHooks.FetchHook.CompleteFetch`).
- The home page shows a section when *some* block is visible. The editor
  reports a section visible when *every* block is visible, or when it has
  none. `HomePage.PageAgainstEditor` proves where the two rules agree and
  where they differ.

## Model

| member | source | states |
|---|---|---|
| Records.Patch | src/lib/database.ts:29-42 | a one-row update keeps the key set; only the addressed row changes, to `f` of its old value |
| Records.SetServiceVisible | src/components/admin/ServicesReorderEditor.tsx:58 | a service visibility write (also `toggleActive`'s) changes the flag of that service only |
| ServicesReorder.Move | src/components/admin/ServicesReorderEditor.tsx:41-48 | the remove-then-insert move keeps the length of the list |
| ServicesReorder.SpliceRemove | src/components/admin/ServicesReorderEditor.tsx:45 | `splice(i, 1)` shortens the list by one when `i` is in range, and is a no-op past the end |
| ServicesReorder.SpliceInsert | src/components/admin/ServicesReorderEditor.tsx:48 | `splice(j, 0, x)` lengthens the list by one |
| ServicesReorder.MoveIsPermutation | src/components/admin/ServicesReorderEditor.tsx:41-48 | a move keeps the length and the multiset of elements |
| ServicesReorder.MoveLandsAtDropIndex | src/components/admin/ServicesReorderEditor.tsx:42-48 | after a move the dragged element sits at the drop index |
| ServicesReorder.MoveKeepsOthersInOrder | src/components/admin/ServicesReorderEditor.tsx:45-48 | removing the dropped element from the result gives the old list without the dragged one: the others keep their relative order |
| ServicesReorder.MoveIndexMap | src/components/admin/ServicesReorderEditor.tsx:41-48 | where each position of the result comes from: the drop index from the dragged one, the positions in between shifted by one towards the old place, all others unchanged |
| ServicesReorder.MoveOntoItselfIsIdentity | src/components/admin/ServicesReorderEditor.tsx:36-39 | moving an element onto its own index changes nothing |
| ServicesReorder.Ids | src/components/admin/ServicesReorderEditor.tsx:70 | `services.map(s => s.id)`: same length, the k-th id is the k-th service's |
| ServicesReorder.IdsOfSpliceRemove | src/components/admin/ServicesReorderEditor.tsx:70 | the id list of a removal is the removal from the id list |
| ServicesReorder.IdsOfSpliceInsert | src/components/admin/ServicesReorderEditor.tsx:70 | the id list of an insertion is the insertion into the id list |
| ServicesReorder.IdsOfMove | src/components/admin/ServicesReorderEditor.tsx:45-70 | the ids submitted after a move are the move of the ids |
| ServicesReorder.IndexOf | src/components/admin/ServicesReorderEditor.tsx:70-71 | the first position of an id in the submitted list |
| ServicesReorder.Reordered | src/components/admin/ServicesReorderEditor.tsx:71 | the abstract `reorderServices` write keeps the store's keys; a service whose id is not submitted is unchanged; a submitted one changes in `order_index` only |
| ServicesReorder.ReorderedAssignsPositions | src/components/admin/ServicesReorderEditor.tsx:71 | with distinct ids, the service at position k of the submitted list gets `order_index` k and nothing else changes; services not submitted are unchanged |
| ServicesReorder.ServicesReorderEditor.constructor | src/components/admin/ServicesReorderEditor.tsx:12-16 | empty list, nothing dragged, no pending changes, not saving, no toggle in flight |
| ServicesReorder.ServicesReorderEditor.Refresh | src/components/admin/ServicesReorderEditor.tsx:18-21 | a data refresh replaces the local list and discards pending order, so the save button is hidden |
| ServicesReorder.ServicesReorderEditor.DragStart | src/components/admin/ServicesReorderEditor.tsx:23-26 | the index of the dragged card is recorded |
| ServicesReorder.ServicesReorderEditor.Drop | src/components/admin/ServicesReorderEditor.tsx:33-53 | no dragged card, or a drop on its own index, leaves the list and the flag alone; a real move makes the list the move of the old one and sets `hasChanges`, so the save button shows; `draggedItem` is cleared either way |
| ServicesReorder.ServicesReorderEditor.ToggleVisibility | src/components/admin/ServicesReorderEditor.tsx:55-65 | a successful write stores the negation of the shown flag for that id only; a failed one leaves the store; the in-flight mark is cleared |
| ServicesReorder.ServicesReorderEditor.SaveOrder | src/components/admin/ServicesReorderEditor.tsx:67-79 | submits the ids in the current local order; `hasChanges` is cleared, hiding the save button, only when the write and the refetch both succeed; otherwise the button stays as it was; `saving` ends false |
| ServicesEditing.MaxOrderIndex | src/components/admin/ServicesEditor.tsx:74-77 | `Math.max(...indices, 0)`: at least 0, at least every index, and equal to one of them unless 0 |
| ServicesEditing.NextOrderIndex | src/components/admin/ServicesEditor.tsx:74-77 | the new service's index is at least 1 and above every existing index, and it is one past the largest |
| ServicesEditing.NewService | src/components/admin/ServicesEditor.tsx:75-78 | the created service carries the new id, the given order index and exactly the buffer's four fields |
| ServicesEditing.UpdateWithEdit | src/components/admin/ServicesEditor.tsx:81 | an update writes the buffer's four fields to that service only |
| ServicesEditing.IconLabel | src/components/admin/ServicesEditor.tsx:414 | the label of the first option with that icon value, or the raw icon when there is none |
| ServicesEditing.ServicesEditor.constructor | src/components/admin/ServicesEditor.tsx:10-20 | idle, default buffer, not saving, no message |
| ServicesEditing.ServicesEditor.StartEditing | src/components/admin/ServicesEditor.tsx:34-44 | editing that id, not creating, the four fields copied into the buffer |
| ServicesEditing.ServicesEditor.StartCreating | src/components/admin/ServicesEditor.tsx:46-56 | creating, no edit id, default buffer (icon `wrench`, visible) |
| ServicesEditing.ServicesEditor.CancelEditing | src/components/admin/ServicesEditor.tsx:58-68 | back to idle with the default buffer |
| ServicesEditing.ServicesEditor.EditTitle | src/components/admin/ServicesEditor.tsx:190 | the title input sets only the buffer's title; an empty title disables the create button |
| ServicesEditing.ServicesEditor.EditIcon | src/components/admin/ServicesEditor.tsx:202 | the icon select sets only the buffer's icon; the create button's state is unchanged |
| ServicesEditing.ServicesEditor.EditDescription | src/components/admin/ServicesEditor.tsx:220 | the description input sets only the buffer's description; an empty one disables the create button |
| ServicesEditing.ServicesEditor.EditVisible | src/components/admin/ServicesEditor.tsx:232 | the visibility checkbox sets only the buffer's flag; the create button's state is unchanged |
| ServicesEditing.ServicesEditor.CreateDisabled | src/components/admin/ServicesEditor.tsx:243 | the create button is disabled iff saving or the title or description is empty |
| ServicesEditing.ServicesEditor.SaveChanges | src/components/admin/ServicesEditor.tsx:70-96 | a create stores a new service under the store's fresh id with the next order index and adds exactly that key; an update writes the buffer; success (including a failing refetch) returns to idle; a failed write keeps the edit state and sets the error; `saving` ends false; creating and editing never hold at once |
| ServicesEditing.ServicesEditor.HandleDelete | src/components/admin/ServicesEditor.tsx:98-111 | nothing happens unless confirmed; a confirmed successful delete removes exactly that id; the message tells success or failure |
| ServicesEditing.ToggleText | src/components/admin/ServicesEditor.tsx:116-119 | the success text says `activado` iff the service was hidden and `desactivado` iff it was shown; it is never the error text |
| ServicesEditing.ServicesEditor.ToggleActive | src/components/admin/ServicesEditor.tsx:113-125 | writes `!is_visible` for that service only; the message names the new state or the failure |
| SectionVisibility.SectionItems | src/components/admin/SectionVisibilityEditor.tsx:21 | the filter keeps exactly the blocks of that section |
| SectionVisibility.AllVisible | src/components/admin/SectionVisibilityEditor.tsx:23 | `every(is_visible)` |
| SectionVisibility.SectionVisible | src/components/admin/SectionVisibilityEditor.tsx:20-24 | an empty section is visible; a section is visible iff every one of its blocks is |
| SectionVisibility.WithSectionVisibility | src/components/admin/SectionVisibilityEditor.tsx:29-37 | the content as the toggle leaves it: the blocks of that section get the new flag, every other block is unchanged |
| SectionVisibility.ToggleFlipsAggregate | src/components/admin/SectionVisibilityEditor.tsx:22-37 | toggling a non-empty section flips its aggregate; an empty one stays visible; other sections' blocks are untouched |
| SectionVisibility.SectionItemsUnchanged | src/components/admin/SectionVisibilityEditor.tsx:29-34 | the toggle leaves the blocks of every other section as they were |
| SectionVisibility.SetContentVisible | src/components/admin/SectionVisibilityEditor.tsx:34 | each write changes the flag of one block only |
| SectionVisibility.WriteStep | src/components/admin/SectionVisibilityEditor.tsx:33-37 | one more write extends the written-so-far description of the store by that block |
| SectionVisibility.SectionVisibilityEditor.constructor | src/components/admin/SectionVisibilityEditor.tsx:10-12 | the fetched content, nothing saving |
| SectionVisibility.SectionVisibilityEditor.ToggleSection | src/components/admin/SectionVisibilityEditor.tsx:26-45 | `saving` holds the section key throughout the writes (loop invariant) and is cleared after; each block of the section whose write succeeded gets the negated aggregate, nothing else changes; when all writes succeed on a store that held the content, the store holds the toggled content |
| SectionVisibility.AllWritesGiveToggledSnapshot | src/components/admin/SectionVisibilityEditor.tsx:29-37 | all writes succeeding give a store equal to the toggled content |
| SectionVisibility.WrittenIffInSection | src/components/admin/SectionVisibilityEditor.tsx:29-34 | with all writes successful and distinct ids, a block is written iff it belongs to the toggled section |
| HomePage.AnyVisible | src/app/page.tsx:17-19 | `some(is_visible)` holds iff some block is visible |
| HomePage.Rendered | src/app/page.tsx:21-30 | three to six blocks, the header first and the footer last |
| HomePage.RenderedBlocks | src/app/page.tsx:17-28 | hero, about and contact appear iff one of their blocks is visible; header first, footer last, services always |
| HomePage.EmptySectionNotRendered | src/app/page.tsx:17-24 | a section without blocks is not rendered |
| HomePage.PageAgainstEditor | src/app/page.tsx:17-19 | the page's rule and the editor's agree on a non-empty section whose blocks share one flag; a mixed section is shown by the page but reported hidden by the editor; an empty one is hidden by the page but reported visible |
| ContentEditing.SectionItemsOfAppend | src/components/admin/ContentEditor.tsx:51-57 | a section's blocks of a concatenation are the blocks of each part in order |
| ContentEditing.SectionKeys | src/components/admin/ContentEditor.tsx:52-54 | the group keys are distinct, cover every block's section, and are exactly the sections with blocks |
| ContentEditing.GroupBySection | src/components/admin/ContentEditor.tsx:51-57 | the reduce yields keys in first-appearance order; each group is the section's blocks in input order and non-empty; every block is in the group of its section, and only there |
| ContentEditing.GroupsPartitionContent | src/components/admin/ContentEditor.tsx:51-57 | the group sizes add up to the number of blocks: every block is in exactly one group |
| ContentEditing.SectionName | src/components/admin/ContentEditor.tsx:105 | the three known sections get their display name; any other key shows as itself |
| ContentEditing.UpdateText | src/components/admin/ContentEditor.tsx:33-36 | a save writes only title and content, of that block only |
| ContentEditing.ContentEditor.constructor | src/components/admin/ContentEditor.tsx:9-14 | idle, empty buffer, not saving, no message |
| ContentEditing.ContentEditor.StartEditing | src/components/admin/ContentEditor.tsx:16-20 | editing that block with its title and content in the buffer |
| ContentEditing.ContentEditor.CancelEditing | src/components/admin/ContentEditor.tsx:22-26 | back to idle with an empty buffer |
| ContentEditing.ContentEditor.EditTitle | src/components/admin/ContentEditor.tsx:120 | the title input sets the buffered title |
| ContentEditing.ContentEditor.EditContent | src/components/admin/ContentEditor.tsx:131 | the textarea sets the buffered text |
| ContentEditing.ContentEditor.SaveChanges | src/components/admin/ContentEditor.tsx:28-49 | nothing happens without an edit target; a successful write stores the buffer and closes the editor; a failed one keeps it open with an error; `saving` ends false |
| ContactEditing.FieldLabel | src/components/admin/ContactEditor.tsx:155 | an unknown name is its own label; a non-empty name has a non-empty label; the contact-fields editor shows the same label (ContactFieldsEditor.tsx:91) |
| ContactEditing.FieldType | src/components/admin/ContactEditor.tsx:70-83 | email to `email`; phone and whatsapp to `tel`; linkedin and twitter to `url`; everything else to `text` |
| ContactEditing.Placeholder | src/components/admin/ContactEditor.tsx:85-103 | total; "" for unknown names |
| ContactEditing.TablesAgreeOnKnownNames | src/components/admin/ContactEditor.tsx:70-103 | exactly the seven known names have a placeholder and a label of their own; only known names get a non-text input |
| ContactEditing.Display | src/components/admin/ContactEditor.tsx:232-256 | url, email and phone are links (only url in a new tab) whose href is the value, `mailto:` plus the value, and `tel:` plus the value; other types are plain text; the shown text is the value |
| ContactEditing.SetFieldValue | src/components/admin/ContactEditor.tsx:53-55 | a save writes only `field_value`, of that field only |
| ContactEditing.ContactEditor.constructor | src/components/admin/ContactEditor.tsx:10-14 | idle, empty buffer, not saving, no message |
| ContactEditing.ContactEditor.StartEditing | src/components/admin/ContactEditor.tsx:36-40 | editing that field with its value in the buffer |
| ContactEditing.ContactEditor.CancelEditing | src/components/admin/ContactEditor.tsx:42-46 | back to idle with an empty buffer |
| ContactEditing.ContactEditor.EditValue | src/components/admin/ContactEditor.tsx:175 | the input's change handler sets the buffer |
| ContactEditing.ContactEditor.SaveChanges | src/components/admin/ContactEditor.tsx:48-68 | nothing happens without an edit target; a successful write stores the value and closes the editor; a failure keeps it and sets the error; `saving` ends false |
| ContactFieldsEditing.TrimStart | src/components/admin/ContactFieldsEditor.tsx:125 | drops exactly the leading white space |
| ContactFieldsEditing.TrimEnd | src/components/admin/ContactFieldsEditor.tsx:125 | drops exactly the trailing white space |
| ContactFieldsEditing.TrimEmptyIffAllWhiteSpace | src/components/admin/ContactFieldsEditor.tsx:125 | `trim()` is empty iff every character is white space |
| ContactFieldsEditing.SetFieldVisible | src/components/admin/ContactFieldsEditor.tsx:28 | the visibility write changes the flag of that field only |
| ContactFieldsEditing.ContactFieldsEditor.constructor | src/components/admin/ContactFieldsEditor.tsx:11-13 | nothing edited, empty buffer, nothing saving |
| ContactFieldsEditing.ContactFieldsEditor.SaveDisabled | src/components/admin/ContactFieldsEditor.tsx:125 | the save button is disabled iff that field is being written or the buffer is all white space |
| ContactFieldsEditing.ContactFieldsEditor.StartToggleVisibility | src/components/admin/ContactFieldsEditor.tsx:25-27 | `saving` holds the field id during the write |
| ContactFieldsEditing.ContactFieldsEditor.CompleteToggleVisibility | src/components/admin/ContactFieldsEditor.tsx:28-35 | a successful write stores `!currentVisibility` for that field only; `saving` is cleared |
| ContactFieldsEditing.ContactFieldsEditor.StartEdit | src/components/admin/ContactFieldsEditor.tsx:37-40 | editing that field with its stored value in the buffer |
| ContactFieldsEditing.ContactFieldsEditor.EditValue | src/components/admin/ContactFieldsEditor.tsx:118 | the input's change handler sets the buffer |
| ContactFieldsEditing.ContactFieldsEditor.StartSaveEdit | src/components/admin/ContactFieldsEditor.tsx:42-44 | `saving` holds the field id and the buffer is what is sent |
| ContactFieldsEditing.ContactFieldsEditor.CompleteSaveEdit | src/components/admin/ContactFieldsEditor.tsx:44-54 | success stores the sent value and clears `editingField` and `editValue`; failure leaves both and the store unchanged; `saving` is cleared |
| ContactFieldsEditing.ContactFieldsEditor.CancelEdit | src/components/admin/ContactFieldsEditor.tsx:56-59 | clears `editingField` and `editValue` |
| SeoEditing.OrEmpty | src/components/admin/SeoEditor.tsx:22-27 | a missing tag reads as "" and a present one as itself |
| SeoEditing.FromMetadata | src/components/admin/SeoEditor.tsx:20-29 | the form holds each stored tag, "" where it is null |
| SeoEditing.WithField | src/components/admin/SeoEditor.tsx:31-37 | only the named field changes |
| SeoEditing.WithForm | src/components/admin/SeoEditor.tsx:42-44 | an update keeps id and page and stores tags that sync back to the same form |
| SeoEditing.NewHomeMetadata | src/components/admin/SeoEditor.tsx:45-49 | a create stores a `home` record whose tags sync back to the form |
| SeoEditing.SaveThenSyncRoundTrip | src/components/admin/SeoEditor.tsx:20-49 | an edited form saved and synced back is the same form, and the edited field holds the typed value |
| SeoEditing.CountersTrackTheirField | src/components/admin/SeoEditor.tsx:116-145 | typing into the title makes its counter red iff the typed text exceeds 60 characters, into the description iff it exceeds 160; typing into any other field leaves the counter; after a sync each counter is red iff the stored tag exceeds its limit |
| SeoEditing.PreviewTitle | src/components/admin/SeoEditor.tsx:192 | the preview shows the title, or exactly the fixed placeholder title when it is empty |
| SeoEditing.PreviewDescription | src/components/admin/SeoEditor.tsx:198 | the preview shows the description, or exactly the fixed placeholder sentence when it is empty |
| SeoEditing.UpdateTags | src/components/admin/SeoEditor.tsx:42-44 | the update writes the form's tags to that record only |
| SeoEditing.SeoEditor.constructor | src/components/admin/SeoEditor.tsx:11-18 | empty form, nothing saving, no changes |
| SeoEditing.SeoEditor.Sync | src/components/admin/SeoEditor.tsx:20-29 | a delivered record refills the whole form; no record leaves it alone; `hasChanges`, and so the save button, is never touched |
| SeoEditing.SeoEditor.InputChange | src/components/admin/SeoEditor.tsx:31-37 | only the named field changes, and `hasChanges` is set, so the save button shows |
| SeoEditing.SeoEditor.Save | src/components/admin/SeoEditor.tsx:39-57 | updates when a record exists, otherwise creates the `home` record under the store's fresh id; `hasChanges` is cleared, hiding the save button, only when the write and the refetch succeed; `saving` ends false |
| ContactSection.FindByName | src/components/sections/Contact.tsx:64 | the index of the first record with that name, none iff no record has it |
| ContactSection.GetContactValue | src/components/sections/Contact.tsx:63-66 | the value of the first record with that name, "" when there is none |
| ContactSection.Digits | src/components/sections/Contact.tsx:87 | the filter keeps only digits and never lengthens |
| ContactSection.DigitsOfAppend | src/components/sections/Contact.tsx:87 | digits of a concatenation are the digits of each part, in order |
| ContactSection.DigitsDropsNonDigit | src/components/sections/Contact.tsx:87 | a non-digit character vanishes, alone, appended or prepended |
| ContactSection.DigitsKeepsDigits | src/components/sections/Contact.tsx:87 | a string of digits passes unchanged |
| ContactSection.DigitsIdempotent | src/components/sections/Contact.tsx:87 | filtering twice is filtering once |
| ContactSection.WhatsAppHref | src/components/sections/Contact.tsx:87 | `https://wa.me/` followed by exactly the digits of the value |
| ContactSection.ContactMethods | src/components/sections/Contact.tsx:68-97 | four methods, with the looked-up email, phone, WhatsApp and location values |
| ContactSection.SectionLinksMatchEditorDisplay | src/components/sections/Contact.tsx:68-82 | the public email and phone links are the hrefs the admin contact editor shows for the same values |
| ContactSection.ContactMethodKinds | src/components/sections/Contact.tsx:297-301 | email, phone and WhatsApp render as links, location never; only WhatsApp opens a new tab |
| ContactSection.SocialLinks | src/components/sections/Contact.tsx:99-112 | a social link is rendered iff its value is non-empty |
| ContactSection.Availability | src/components/sections/Contact.tsx:325 | the stored hours, or the default schedule when empty |
| ContactSection.IntroText | src/components/sections/Contact.tsx:137 | the first block's text when it is non-empty, otherwise exactly the default paragraph |
| ContactSection.ContactFormState.constructor | src/components/sections/Contact.tsx:22-30 | all five fields empty, not submitting, not submitted |
| ContactSection.ContactFormState.InputChange | src/components/sections/Contact.tsx:32-38 | only the named field changes |
| ContactSection.ContactFormState.StartSubmit | src/components/sections/Contact.tsx:40-42 | submission starts and the submit button is disabled |
| ContactSection.ContactFormState.CompleteSubmit | src/components/sections/Contact.tsx:47-48 | the wait ends: the button is enabled again and the form is replaced by the thank-you note |
| ContactSection.ContactFormState.ResetAfterSubmit | src/components/sections/Contact.tsx:51-59 | all five fields back to "" and `isSubmitted` cleared, so the form shows again |
| ContentHooks.Refetches | src/hooks/useContent.ts:24 | the effect re-runs iff its dependency changed |
| ContentHooks.ContactInfoRerender | src/hooks/useContent.ts:72 | `useContactInfo` has no dependency, so a re-render of its hook never starts a fetch and leaves data, loading and error as they were |
| ContentHooks.ErrorText | src/hooks/useContent.ts:17 | an `Error` shows its message; anything else shows the hook's fallback text |
| ContentHooks.FetchHook.constructor | src/hooks/useContent.ts:6-8 | empty data, loading, no error |
| ContentHooks.FetchHook.StartFetch | src/hooks/useContent.ts:13 | a fetch sets `loading` |
| ContentHooks.FetchHook.CompleteFetch | src/hooks/useContent.ts:14-20 | rows replace the data and keep an earlier error; a throw keeps the data and sets the error; `loading` ends false either way |
| ContentHooks.FetchHook.Rerender | src/hooks/useContent.ts:10-24 | a fetch starts iff the dependency changed |
| Auth.ConfiguredAdminEmail | src/lib/auth.ts:47 | `NEXT_PUBLIC_ADMIN_EMAIL`, else `ADMIN_EMAIL`, else the default, skipping empty values; never empty |
| Auth.IsAdminEmail | src/lib/auth.ts:45-50 | only a non-empty address can be the admin (with Auth.EmptyEmailIsNotAdmin and Auth.OneAdminAddress) |
| Auth.EmptyEmailIsNotAdmin | src/lib/auth.ts:45-50 | the empty address is never the admin |
| Auth.OneAdminAddress | src/lib/auth.ts:45-50 | exactly one address is the admin: the configured one, compared case-sensitively |
| AuthContext.AdminFor | src/context/AuthContext.tsx:26 | admin only with a user, never for a user without an email, otherwise iff its email is the admin address |
| AuthContext.AuthProvider.constructor | src/context/AuthContext.tsx:18-20 | no user, not admin, loading |
| AuthContext.AuthProvider.IsAuthenticated | src/context/AuthContext.tsx:49 | authenticated iff there is a user |
| AuthContext.AuthProvider.CheckSessionCompleted | src/context/AuthContext.tsx:23-28 | the found user is stored with its admin flag; loading ends; admin implies authenticated |
| AuthContext.AuthProvider.OnAuthStateChange | src/context/AuthContext.tsx:32-41 | a session sets its user and admin flag; none clears both; loading ends; admin implies authenticated |
| AdminDashboard.EditorFor | src/app/admin/page.tsx:123-125 | exactly one editor for each of the three tab ids, none for any other |
| AdminDashboard.Render | src/app/admin/page.tsx:46-56 | a spinner iff loading; the editors iff not loading, authenticated and admin; nothing otherwise |
| AdminDashboard.ShouldRedirect | src/app/admin/page.tsx:23-29 | the login redirect fires iff not loading and not an authenticated admin |
| AdminDashboard.GateIsExclusive | src/app/admin/page.tsx:23-56 | the page renders nothing exactly when it redirects, and never shows editors while redirecting |
| AdminDashboard.GateOnContext | src/app/admin/page.tsx:23-56 | over a consistent auth context, the editors show iff loaded and admin, and the redirect fires iff loaded and not admin |
| AdminDashboard.AdminPage.constructor | src/app/admin/page.tsx:17 | the initial tab is `content`, which shows the content editor |
| AdminDashboard.AdminPage.SelectTab | src/app/admin/page.tsx:107 | a tab click makes that tab active |
| AdminDashboard.AdminPage.SignOut | src/app/admin/page.tsx:31-40 | redirects iff sign-out succeeded; a success or an error toast accordingly |

## Left out

- The hosted store client and the environment: the database and client
  modules are thin wrappers. Each store write is an abstract step that
  succeeds or fails. Environment variables are a parameter (`Auth.Env`).
- Functions the editors import but that are not part of this model:
  - `reorderServices`: specified as an abstract write that sets each listed
    id's `order_index` to its position (`ServicesReorder.Reordered`);
  - `useSeoMetadata`: its delivered record is the parameter of
    `SeoEditing.SeoEditor.Sync`;
  - `updateSeoMetadata` and `createSeoMetadata`.
- A `reorderServices` that fails half-way cannot be expressed: the write
  either lands whole or not at all.
- `refetch`: never a working re-read, only an outcome parameter (see above).
- Concurrency and timing:
  - The writes of `Promise.all` run concurrently in the section toggle; the
    model runs them sequentially in list order, each with its own outcome.
  - Overlapping fetches and the races between handlers are not modelled.
  - Timers are not modelled: the 3-second message clearing, the 2-second
    simulated submission, and the 3-second reset delay. Their effects are
    separate methods (`ContactFormState.CompleteSubmit` and
    `ContactFormState.ResetAfterSubmit`).
- Browser APIs are not modelled: `confirm` (a `confirmed` parameter),
  drag-event data transfer, scrolling, `window.open`, router navigation
  (a `redirect` result), toasts (a `Toast` result) and console logging.
- ServicesReorder.ServicesReorderEditor.Drop: requires a dragged index that
  is in range. A stale index past the end would make the source insert
  `undefined`, which the model does not represent.
- The visitor's contact form is never sent anywhere in the source, so
  there is no send operation to model.
- Schema mismatches are recorded here, not resolved:
  - `getServices` filters on a column `active` while the record type has
    `is_visible`.
  - The reorder editor asks for active services only, though its comment
    says hidden ones are included.
- Extra hook arguments are ignored by the hooks, and the model ignores
  them: `useContactInfo(true)` and the second argument of
  `useSiteContent`.
- Character counts are counts of Dafny characters, not of UTF-16 code units
  (`String.length`). `maxLength` limits are enforced by the browser and are
  not modelled.
- ContentEditing.GroupBySection: the order of the keys follows first
  appearance. JavaScript's `Object.entries` would list integer-like keys
  first; section keys are words, where the two orders agree.
- ContentEditing.GroupBySection: a section named `constructor` (or another
  object-prototype name) would find an inherited member in the `{}`
  accumulator, and `.push` would throw. The model treats every section key
  as a fresh key.
- ContentEditing.SectionName: the display-name table is a plain object, so a
  prototype name would show an inherited member. The model treats every
  name outside the three known sections as unknown.
- AuthContext.AuthProvider.CheckSessionCompleted: a `getUser` that throws
  would leave `loading` true, since the source has no `catch` there; the
  model only covers a call that returns.
- ServicesEditing.ServicesEditor.SaveChanges and SeoEditing.SeoEditor.Save:
  a create requires an id not yet in the store, standing for the fresh id
  the hosted store assigns.
- ContactEditing.FieldLabel: object-prototype names such as `constructor`
  would hit inherited members in the source's lookup table. The model treats
  every name outside the table as unknown.
- Icons, colours and markup of all components are not modelled.
  Presentational components are not part of this model: hero, about,
  services list, header, footer, button and layout. Their only logic is a
  lookup with a fallback, of the kind `ContactSection.GetContactValue`
  models.
- The placeholder of the contact-fields editor is built with
  `toLowerCase` of the field label; case folding is not modelled.
- `useAuth` is not part of this model. It duplicates the admin check and
  reads a `session` the context does not provide.
- The login test script is not part of this model.
- The sign-in, session and sign-out helpers of the auth module are thin
  store wrappers. They appear only as outcomes (`found`, `sessionUser`,
  `ok`).
