# Task views of a to-do app, as a verified model

The app shows tasks as rows in a list and as cards on a board. Both update
optimistically, but not in the same way:

- A row changes its status and its typed title on screen before sending
  them. It puts them back only when the server answers with a refusal; a
  fetch that fails outright leaves them. The row's duration and due-date
  pickers change nothing locally: the row shows the props' values until a
  refresh.
- A card writes every edit (title, due date, duration) into its own copy of
  the task before sending it. When the update fails, the card resets its
  copy to the props' task.

This project models those components and proves what they promise. It also
models:

- the inline text editor that decides whether an edit is a real change;
- the two theme controls that share one `localStorage` key;
- the start page of the single-page front end.

Network calls are not performed. Each handler that sends a task update
returns a `Request` that records the body and the props of the render that
sent it. The delete handler returns the URL it deletes, and the page's task
fetch is a flag that goes up and comes down.
A separate method takes the outcome and settles the request:

- a `fetch` settles as `Ok`, `NotOk` or `Rejected`;
- a server action or API promise settles as `Fulfilled(v)` or `Failed`.

What the router is asked to do comes back as a `Refresh` (`NoRefresh`, `Now`
or `After(3000)`). The toast left on screen comes back as a `Notice`.
`localStorage` is a `map<string, string>` and the root class list is a
`set<string>`, both fields of a `Page` object. Dates are optional
millisecond timestamps. The `(prefers-color-scheme: dark)` media query and
the hour of the clock are parameters.

React state becomes class fields. Props are fields too, and `ReceiveProps`
replaces them. This is because a router refresh re-renders a component with
new props while `useState` keeps the local state. The callbacks that settle a
request close over the props of the render that sent it, so a rollback
restores `request.snapshot`, not the latest props.

Files, one module each:

- `common.dfy` (`Common`): task, body, outcome, notice and refresh types.
- `js_string.dfy` (`JsString`): `String.prototype.trim` over ECMAScript's
  white-space and line-terminator set.
- `browser.dfy` (`Browser`): `getItem`, the `"theme"` key, the `dark` class
  and the `Page` object.
- `task_list_item.dfy` (`ListItem`): `TaskListItem`.
- `task_board_item.dfy` (`BoardItem`): `TaskBoardItem`.
- `editable_text.dfy` (`EditableTextField`): `EditableText`.
- `use_theme.dfy` (`ThemeHook`): `useTheme`.
- `settings_modal_content.dfy` (`Settings`): `SettingsModalContent`.
- `home.dfy` (`HomeRoute`): `Home`.

## Model

| member | source | states |
|---|---|---|
| `ListItem.NextStatus` | components/task-list-item.tsx:114-120 | the cycle button always moves to a different status |
| `ListItem.StatusCycleCloses` | components/task-list-item.tsx:114-120 | three advances return to the starting status and two do not |
| `ListItem.AriaLabel` | components/task-list-item.tsx:163-169 | the cycle button's label reads "Mark task as " followed by a status other than the current one |
| `ListItem.AriaLabelNamesNextStatus` | components/task-list-item.tsx:163-169 | the button's label, computed separately, names the status the button sets |
| `ListItem.TitleToSend` | components/task-list-item.tsx:127-132 | a title is sent iff the raw input is non-empty and its trimmed form differs from the props' title, and what is sent is the trimmed input |
| `ListItem.WhiteSpaceTitleSendsEmpty` | components/task-list-item.tsx:127-130 | a non-empty input made only of white space passes the emptiness check and sends the empty title |
| `ListItem.TitleSendIdempotent` | components/task-list-item.tsx:127-131 | once the props carry the sent title, blurring again with that title or the same input sends nothing |
| `ListItem.Notify` | components/task-list-item.tsx:62-90 | the success toast appears iff the response is OK; a refused response and a rejected fetch both give the error toast |
| `ListItem.UpdateRefresh` | components/task-list-item.tsx:69-83 | after an OK update the refresh is delayed 3000 ms iff the body's status is COMPLETED, otherwise immediate; no refresh unless the response is OK |
| `ListItem.DeleteRefresh` | components/task-list-item.tsx:98-104 | a delete refreshes immediately iff the response is OK, and otherwise not at all |
| `ListItem.TaskListItem.constructor` | components/task-list-item.tsx:41-44 | local status and title start from the props' task; not editing, not deleting |
| `ListItem.TaskListItem.ReceiveProps` | components/task-list-item.tsx:39-44 | new props replace the task and leave all local state as it was |
| `ListItem.TaskListItem.UpdateStatus` | components/task-list-item.tsx:114-123 | local status becomes the next status before any response, and the body sent carries that status and no other field |
| `ListItem.TaskListItem.StartEditingTitle` | components/task-list-item.tsx:193-196 | a click on the title opens the input |
| `ListItem.TaskListItem.EditTitle` | components/task-list-item.tsx:188-189 | typing sets the local title to the input's value |
| `ListItem.TaskListItem.UpdateTitle` | components/task-list-item.tsx:125-133 | blur always leaves edit mode and sends a title-only body exactly when `TitleToSend` gives a title |
| `ListItem.TaskListItem.UpdateDuration` | components/task-list-item.tsx:135-139 | a duration-only body is sent iff the duration differs from the props' duration; no local state changes |
| `ListItem.TaskListItem.UpdateDueDate` | components/task-list-item.tsx:141-145 | a due-date-only body is sent iff the timestamp differs from the props' one, two absent dates being equal |
| `ListItem.TaskListItem.ResolveUpdate` | components/task-list-item.tsx:62-84 | only a refused response puts status and title back to the sending props' values; OK and a rejected fetch keep the optimistic values; notice and refresh as `Notify` and `UpdateRefresh` |
| `ListItem.TaskListItem.DeleteTask` | components/task-list-item.tsx:93-97 | the busy flag is set at once and the delete button is no longer shown |
| `ListItem.TaskListItem.ShowsDeleteButton` | components/task-list-item.tsx:224-236 | the delete button is on screen iff no delete is in flight; otherwise the spinner takes its place |
| `ListItem.TaskListItem.ResolveDelete` | components/task-list-item.tsx:98-104 | only a refused response clears the busy flag; OK and a rejected fetch leave it set |
| `BoardItem.Apply` | components/task-board/task-board-item.tsx:54-76 | an edit replaces exactly its own field of the card's copy; every other field is unchanged |
| `BoardItem.BodyOf` | components/task-board/task-board-item.tsx:53-78 | each control's body carries the edited field alone, with the new value, and never a status |
| `BoardItem.BodyMatchesLocalEdit` | components/task-board/task-board-item.tsx:53-78 | the body sent holds the same value written locally: merging it into the previous copy gives the new copy |
| `BoardItem.RejectionDiscardsEarlierEdits` | components/task-board/task-board-item.tsx:31-41 | a failed update resets the copy to the props' task whatever edits came before it |
| `BoardItem.ReplayKeepsUneditedFields` | components/task-board/task-board-item.tsx:21-78 | from the props' task, any run of edits and settlements keeps id, status and list equal to the props' |
| `BoardItem.TaskBoardItem.constructor` | components/task-board/task-board-item.tsx:21 | the optimistic copy starts equal to the props' task |
| `BoardItem.TaskBoardItem.ReceiveProps` | components/task-board/task-board-item.tsx:15-21 | new props leave the optimistic copy as it was |
| `BoardItem.TaskBoardItem.ChangeTitle` | components/task-board/task-board-item.tsx:53-56 | the copy takes the new title and a title-only body with that title is always sent, without comparing with the old title |
| `BoardItem.TaskBoardItem.ChangeDueDate` | components/task-board/task-board-item.tsx:68-71 | the copy takes the new due date and a due-date-only body with it is always sent |
| `BoardItem.TaskBoardItem.ChangeDuration` | components/task-board/task-board-item.tsx:75-78 | the copy takes the new duration and a duration-only body with it is always sent |
| `BoardItem.TaskBoardItem.Settle` | components/task-board/task-board-item.tsx:31-41 | on failure the copy becomes the sending props' task in every field; on success it is unchanged |
| `EditableTextField.Commit` | components/editable-text.tsx:26-35 | text is emitted iff (empty is allowed or the trimmed input is non-empty) and the trimmed input differs from the shown text, and what is emitted is the trimmed input |
| `EditableTextField.CommittedTextIsClean` | components/editable-text.tsx:30-34 | emitted text has no white space at either end, is never the shown text, and is empty only where empty text is allowed |
| `EditableTextField.WhiteSpaceNotCommitted` | components/editable-text.tsx:30-32 | without `canBeEmpty`, input made only of white space emits nothing |
| `EditableTextField.CommitIdempotent` | components/editable-text.tsx:30-33 | once the shown text is the emitted text, blurring again with it or with the same input emits nothing |
| `EditableTextField.ViewOf` | components/editable-text.tsx:37-82 | the input shows iff editing; the italic "Empty" label shows iff not editing and the text is empty; otherwise the text itself |
| `EditableTextField.EditableText.constructor` | components/editable-text.tsx:13-14 | starts out of edit mode |
| `EditableTextField.EditableText.ReceiveProps` | components/editable-text.tsx:3-14 | new props replace `text` and `canBeEmpty`, which the next blur reads, and keep the edit mode |
| `EditableTextField.EditableText.Click` | components/editable-text.tsx:70 | a click enters edit mode with the input holding the text |
| `EditableTextField.EditableText.UpdateText` | components/editable-text.tsx:26-35 | blur always leaves edit mode, and `onTextChanged` gets a value exactly when `Commit` gives one |
| `Browser.GetItem` | hooks/use-theme.ts:5-7 | `getItem` gives the stored value iff the key is present, and nothing otherwise |
| `ThemeHook.InitialTheme` | hooks/use-theme.ts:4-10 | stored `"dark"` gives dark, `"light"` gives light, any other value or none gives system |
| `ThemeHook.StoreTheme` | hooks/use-theme.ts:12-29 | the effect stores `"dark"` or `"light"` for an explicit choice and removes the key for system; no other key changes |
| `ThemeHook.ThemeClasses` | hooks/use-theme.ts:13-28 | after the effect `dark` is on iff the theme is dark, or system with the OS preferring dark; no other class changes |
| `ThemeHook.ThemeRoundTrip` | hooks/use-theme.ts:4-23 | reading back what the effect stored gives the same theme, for all three values |
| `ThemeHook.ThemeEffectIdempotent` | hooks/use-theme.ts:12-30 | running the effect twice with the same theme and OS preference changes nothing more |
| `ThemeHook.ThemeState.constructor` | hooks/use-theme.ts:4-10 | the hook starts from the theme read from storage |
| `ThemeHook.ThemeState.SetTheme` | hooks/use-theme.ts:32-35 | `setTheme` replaces the theme |
| `ThemeHook.ThemeState.Effect` | hooks/use-theme.ts:12-30 | the effect leaves storage and class list as `StoreTheme` and `ThemeClasses` give |
| `Settings.InitialDarkMode` | components/settings-modal-content.tsx:5-7 | the switch starts on iff `"dark"` is stored, that is iff `useTheme` would start dark |
| `Settings.StoreDarkMode` | components/settings-modal-content.tsx:10 | the effect stores `"dark"` iff the switch is on and `"light"` otherwise, so the key is never absent; no other key changes |
| `Settings.ToggleDark` | components/settings-modal-content.tsx:11 | after the effect `dark` is on iff the switch is on; no other class changes |
| `Settings.DarkModeRoundTrip` | components/settings-modal-content.tsx:5-10 | reading back what the effect stored gives the same switch position |
| `Settings.SwitchAgreesWithHook` | components/settings-modal-content.tsx:9-12 | the switch writes what `useTheme` writes for the matching explicit choice, whatever the OS prefers |
| `Settings.MountPinsExplicitTheme` | components/settings-modal-content.tsx:5-11 | mounting the settings turns any stored value but `"dark"` into `"light"`, so where `useTheme` read system it now reads light |
| `Settings.SettingsModalContent.constructor` | components/settings-modal-content.tsx:5-7 | the switch starts at `InitialDarkMode` of the stored value |
| `Settings.SettingsModalContent.SetDarkMode` | components/settings-modal-content.tsx:24 | the switch's change handler sets the switch position |
| `Settings.SettingsModalContent.Effect` | components/settings-modal-content.tsx:9-12 | the effect leaves storage and class list as `StoreDarkMode` and `ToggleDark` give |
| `HomeRoute.FirstName` | frontend/src/routes/home.tsx:15 | the first name is a space-free prefix of the name that stops at the first space or at the end |
| `HomeRoute.NameSuffix` | frontend/src/routes/home.tsx:47-49 | `", "` and the first name are appended iff there is a user whose first name is non-empty |
| `HomeRoute.LeadingSpaceGivesNoSuffix` | frontend/src/routes/home.tsx:15 | a name starting with a space gives a greeting without a name |
| `HomeRoute.SuffixNamesUser` | frontend/src/routes/home.tsx:15-49 | for a name not starting with a space, the greeting's tail is `", "` and the name's first word |
| `HomeRoute.DayPartOf` | frontend/src/routes/home.tsx:46-48 | morning iff the hour is before 12, afternoon iff it is from 12 to 17, evening iff it is after 17 |
| `HomeRoute.Salutation` | frontend/src/routes/home.tsx:47-50 | each part of the day's opening words are non-empty, contain no comma, and open with a symbol no other part uses |
| `HomeRoute.DayPartsPartitionTheDay` | frontend/src/routes/home.tsx:46-50 | hours 0-11 are morning, 12-17 afternoon, 18-23 evening |
| `HomeRoute.Greeting` | frontend/src/routes/home.tsx:45-50 | the heading starts with the day part's salutation; it is exactly that salutation iff there is no name to add, and otherwise the salutation followed by `", "` and the user's first name |
| `HomeRoute.GreetingDeterminesParts` | frontend/src/routes/home.tsx:45-50 | two equal headings name the same part of the day and the same name suffix |
| `HomeRoute.Filter` | frontend/src/routes/home.tsx:56-65 | a filter keeps exactly the elements that pass, each as often as in the input |
| `HomeRoute.FilterAppend` | frontend/src/routes/home.tsx:56-65 | a filter keeps the input's order |
| `HomeRoute.DueTasks` | frontend/src/routes/home.tsx:56 | the time view gets exactly the tasks with a truthy `due`, with their multiplicities |
| `HomeRoute.ListedTasks` | frontend/src/routes/home.tsx:65 | the list view gets exactly the tasks with a truthy `listId`, with their multiplicities |
| `HomeRoute.ViewsKeepOrder` | frontend/src/routes/home.tsx:56-65 | both views keep the store's order |
| `HomeRoute.Home.constructor` | frontend/src/routes/home.tsx:10-12 | the page starts not loading and not navigated, with the store's tasks |
| `HomeRoute.Home.Mount` | frontend/src/routes/home.tsx:17-24 | not signed in: navigate to `/login` and start no fetch; signed in: start the fetch |
| `HomeRoute.Home.GetAllTasks` | frontend/src/routes/home.tsx:26-28 | the loading flag is raised as the fetch starts |
| `HomeRoute.Home.SettleGetTasks` | frontend/src/routes/home.tsx:28-39 | the loading flag drops on either outcome; the tasks are replaced only on success |
| `JsString.TrimStart` | components/editable-text.tsx:30 | drops exactly the leading white space |
| `JsString.TrimEnd` | components/editable-text.tsx:30 | drops exactly the trailing white space |
| `JsString.Trim` | components/editable-text.tsx:30 | the trimmed text has no white space at either end and is no longer than the input |
| `JsString.TrimIsSlice` | components/editable-text.tsx:30 | `trim` keeps a contiguous slice of the input, and everything it drops on either side is white space |
| `JsString.TrimOfPadded` | components/editable-text.tsx:30 | a string with no white space at either end, padded with white space on both sides, trims back to itself |
| `JsString.TrimIdempotent` | components/editable-text.tsx:30 | trimming twice is trimming once |
| `JsString.TrimEmptyIff` | components/task-list-item.tsx:127-128 | `trim` gives `""` iff the input is all white space |

## Left out

- Network, server and rendering. The `fetch` calls, the `updateTask`
  server action and `api.getTasks` are outcome parameters.
- Toast rendering, `router.refresh` and `setTimeout` are results: a `Notice`
  and a `Refresh`, with the 3000 ms constant.
- Same-task requests that are in flight together. Each settlement is a
  separate sequential step. A success changes nothing local, so a rollback
  from an earlier failure stays even when a later request succeeds.
- Drag and drop: `useSortable`, `animateLayoutChanges` and CSS transforms
  belong to a foreign library. No reorder is saved in the code modelled.
- JSX markup, CSS classes and Markdown rendering. The icon chosen for a
  status is not modelled either.
- Focus and blur wiring (Enter blurs the input).
- `DueDatePopover`, `DurationMenu` and `EditableTitle` are not part of this
  model. Their callbacks are the method parameters.
- `Task` fields other than id, title, status, due date, duration and list
  are not modelled. None of the modelled code reads them.
- Dates are timestamps. An invalid `Date` has a NaN time that equals
  nothing, so it would always be sent. That case is not modelled.
- HomeRoute.Home: the store's reducer for `onGetTasks` is not shown. The
  model takes it to replace the task list.
- HomeRoute.Home.SettleGetTasks: the `console.log` on a failed fetch is
  console output and is not modelled; the failure leaves the tasks as they
  were.
- HomeRoute.Home: the `tasks &&` guard is not modelled. The model has no
  absent task list.
- The front-end task type is not shown. Its `due` and `listId` are modelled
  as optional strings, truthy when present and non-empty.
- HomeRoute.Greeting: models the hour as any integer. `getHours()` gives
  0-23.
- JsString.Trim: works on Unicode code points. JavaScript works on UTF-16
  code units, but every character `trim` strips is in the Basic
  Multilingual Plane, so the result is the same.
- `EditableText`'s `placeholder` prop, textarea switch and faded style are
  rendering and are not modelled.
- The router, layout, Redux store and hook re-export files are not modelled.
  They only wire components together.
