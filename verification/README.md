# BusinessConnect client logic in Dafny

BusinessConnect is a single-page web app for a speed-meeting event. Startups
and large companies register, build a profile and browse a participant
directory. They rank the participants they want to meet, exchange messages,
follow their agenda for the day and export it to a calendar. A keyword
assistant answers questions in a chat window.

The app's logic lives in small client-side state stores and a few helpers.
This project models them:

- the session store: sign in, registration, profile updates, onboarding flag;
- the preference list: ranked, duplicate-free, ordered 1..n;
- the participant directory: filters, favourites and the filtered list;
- the messaging inbox: conversations, unread counters, time-sorted messages;
- the agenda store and its iCalendar export;
- the agenda's 21-slot day grid;
- the help chat and its keyword matcher;
- the password rule and the ordered checks of the registration page;
- the four-step onboarding wizard;
- the two route guards.

Each store is a class. Its fields are the store's state. Its methods say in
`modifies` which fields they change and in `ensures` what the new state is.
Pure helpers are functions. The properties the code promises are lemmas
about those functions.

Module layout:

- `Wrappers` holds `Option`.
- `Lists` holds the JavaScript array built-ins: `find`, `findIndex`, `filter`, `flatMap` and the include-or-remove toggle.
- `Text` holds the string built-ins: `toLowerCase`, `includes`, `indexOf`, `replace`, `toString`, `padStart` and `split`.
- `Types` holds the records of `src/types/index.ts`.
- Each of the remaining modules is one source file.

## Model

| member | source | states |
|---|---|---|
| Preferences.PreferencesStore.constructor | src/store/preferencesStore.ts:23-25 | The list starts empty, and so well-ordered. The deadline is 2025-02-24T18:00:00Z and nothing is submitted. |
| Preferences.PreferencesStore.AddPreference | src/store/preferencesStore.ts:27-44 | Returns true exactly when no entry carries the id. It then appends exactly `{id, order: n+1}`. Otherwise the list is unchanged. No size limit and no submitted flag gates it. A well-ordered list stays well-ordered. |
| Preferences.PreferencesStore.RemovePreference | src/store/preferencesStore.ts:46-57 | The new list is the old one with the id's entries filtered out and the rest renumbered. On a well-ordered list the result is well-ordered, its ids are the old ids without this one in the same order, and the id is no longer listed. |
| Preferences.PreferencesStore.ReorderPreferences | src/store/preferencesStore.ts:59-66 | The list takes the ids of `newOrder` in its sequence, with order = position + 1. It is well-ordered when `newOrder` has no repeated id. |
| Preferences.PreferencesStore.IsInPreferences | src/store/preferencesStore.ts:68-70 | True exactly when some entry has that participant id. |
| Preferences.PreferencesStore.CanAddMore | src/store/preferencesStore.ts:72-75 | Always true: the list has no size limit. |
| Preferences.PreferencesStore.SubmitPreferences | src/store/preferencesStore.ts:77-79 | Sets the submitted flag and changes nothing else. |
| Preferences.PreferencesStore.UnsubmitPreferences | src/store/preferencesStore.ts:81-84 | Clears the submitted flag and changes nothing else. |
| Preferences.Ids | src/store/preferencesStore.ts:59-66 | The ids of a list, position by position. |
| Preferences.ListedIff | src/store/preferencesStore.ts:68-70 | `some(p => p.participantId === id)` holds exactly when some position carries the id, that is, when the id is among the list's ids. |
| Preferences.Renumbered | src/store/preferencesStore.ts:51-54 | Renumbering keeps the ids in their sequence and gives entry i the order i+1. |
| Preferences.IdsOfFilter | src/store/preferencesStore.ts:48 | Filtering entries by id and then taking ids equals taking ids and then filtering out that id. |
| Preferences.AddedWellOrdered | src/store/preferencesStore.ts:27-44 | Adding preserves the invariant: distinct ids and orders exactly 1..n. |
| Preferences.RemovedWellOrdered | src/store/preferencesStore.ts:46-57 | Removing preserves the invariant. It drops exactly the entries for the id and keeps the other ids in relative order. |
| Preferences.RemovedAt | src/store/preferencesStore.ts:46-57 | Removing the id at position k of a well-ordered list leaves the ids before and after k, joined. |
| Preferences.ReorderedWellOrdered | src/store/preferencesStore.ts:59-66 | Reordering keeps the ids and their sequence. A duplicate-free `newOrder` gives a well-ordered list. |
| Preferences.AddedNew | src/store/preferencesStore.ts:31-43 | Adding an unlisted id appends `{id, order: n+1}` and appends the id to the ids. |
| Preferences.AddedAllDistinct | src/test/preferencesStore.test.ts:39-48 | Adding n distinct new ids one after another to a well-ordered list succeeds each time. The result is well-ordered and its ids are the old ids followed by the new ones. |
| Preferences.TestIdsDistinct | src/test/preferencesStore.test.ts:88-99 | The ids `participant-1` .. `participant-n` are pairwise distinct. |
| Preferences.ManyAddsSucceed | src/test/preferencesStore.test.ts:88-99 | Adding `participant-1` .. `participant-n` to an empty list gives n entries, well-ordered, whatever n (15 and 20 included). |
| Preferences.AddThree | src/test/preferencesStore.test.ts:51-56 | Adding participants 1, 2 and 3 to an empty list numbers them 1, 2 and 3. |
| Preferences.RemoveMiddleRenumbers | src/test/preferencesStore.test.ts:51-65 | After adding 1, 2 and 3 and removing 2, the list is exactly participant 1 at order 1 and participant 3 at order 2. |
| ChatbotResponses.MatchesIff | src/data/chatbotResponses.ts:86-89 | An entry matches exactly when one of its keywords is a substring of the lower-cased message. |
| ChatbotResponses.TableHasKeywords | src/data/chatbotResponses.ts:3-74 | Every entry of the table has at least one keyword. |
| ChatbotResponses.FindInFirstMatch | src/data/chatbotResponses.ts:85-93 | Over any table whose entries all have keywords, the result is the first entry, in table order, that matches. It is the default entry exactly when no entry matches. |
| ChatbotResponses.FindInEarliest | src/data/chatbotResponses.ts:85-91 | A matching entry is the answer whenever no earlier entry matches. |
| ChatbotResponses.FindResponseFirstMatch | src/data/chatbotResponses.ts:82-93 | `findResponse` returns the first table entry whose keyword occurs in the lower-cased message. With no such entry it returns exactly the default entry. |
| ChatbotResponses.FindResponseInTable | src/data/chatbotResponses.ts:76-93 | The result is a table entry or the default entry. The default entry is the only possible result without keywords. |
| ChatbotResponses.FindResponseIgnoresCase | src/data/chatbotResponses.ts:83 | Messages that differ only in letter case get the same entry. |
| ChatbotResponses.FindResponseOfLowered | src/data/chatbotResponses.ts:83 | Lower-casing a message first does not change its answer. |
| ChatbotResponses.GreetingWins | src/data/chatbotResponses.ts:5 | A message containing any greeting keyword gets the greeting entry, whatever else it contains. |
| ChatbotResponses.SecondMatchShadows | src/data/chatbotResponses.ts:85-91 | When the second entry matches, the answer is the first or the second entry, and the second one if the first does not match. |
| ChatbotResponses.RencontrerContainsRencontre | src/data/chatbotResponses.ts:10-15 | A message containing "rencontrer" contains "rencontre". |
| ChatbotResponses.RencontrerShadowed | src/data/chatbotResponses.ts:10-91 | A message containing "rencontrer" gets the greeting or the agenda entry, never the preferences entry. It gets the agenda entry when it is no greeting. |
| ChatbotResponses.GreetingExample | src/test/chatbotResponses.test.ts:6-11 | "Bonjour, comment ça va ?" gets the greeting entry although "comment" is a keyword of a later entry. |
| ChatbotResponses.NotGreeting | src/data/chatbotResponses.ts:5 | A lower-cased message with no 'b', 'h' or 'l' matches no greeting keyword. |
| ChatbotResponses.AgendaExampleText | src/test/chatbotResponses.test.ts:33 | "Où est mon agenda ?" lower-cases to "où est mon agenda ?", which contains "agenda". |
| ChatbotResponses.AgendaWins | src/data/chatbotResponses.ts:5-10 | A lower-cased message that mentions "agenda" and matches no greeting gets the agenda entry. |
| ChatbotResponses.AgendaExample | src/test/chatbotResponses.test.ts:32-37 | "Où est mon agenda ?" gets the agenda entry, not the entry for "où". |
| ChatbotResponses.CaseExample | src/test/chatbotResponses.test.ts:22-29 | "bonjour", "BONJOUR" and "BoNjOuR" get the same entry. |
| ChatbotStore.Welcome | src/store/chatbotStore.ts:23-28 | The greeting is a bot message with id `welcome`, the welcome text and the load time. |
| ChatbotStore.ReplyText | src/store/chatbotStore.ts:63-64 | The reply starts with the entry's response. It continues with a blank line and the follow-up exactly when the follow-up is present and non-empty. |
| ChatbotStore.BotReplyIgnoresCase | src/store/chatbotStore.ts:60-64 | The bot gives the same reply to messages that differ only in letter case. |
| ChatbotStore.BotReplyDefault | src/store/chatbotStore.ts:60-64 | A message that matches no table entry gets the default entry's reply. |
| ChatbotStore.DefaultReplyHasFollowUp | src/data/chatbotResponses.ts:76-80 | The default reply is the response, a blank line and the contact suggestion. |
| ChatbotStore.ChatbotStore.constructor | src/store/chatbotStore.ts:30-32 | The chat starts closed, showing only the greeting. |
| ChatbotStore.ChatbotStore.ToggleChat | src/store/chatbotStore.ts:34-36 | Negates the open flag. |
| ChatbotStore.ChatbotStore.OpenChat | src/store/chatbotStore.ts:38-40 | The chat is open afterwards, whatever it was before. |
| ChatbotStore.ChatbotStore.CloseChat | src/store/chatbotStore.ts:42-44 | The chat is closed afterwards, whatever it was before. |
| ChatbotStore.ChatbotStore.SendMessage | src/store/chatbotStore.ts:46-57 | Appends exactly one non-bot message with the given content and id `user-<now>`. |
| ChatbotStore.ChatbotStore.DeliverReply | src/store/chatbotStore.ts:59-72 | Appends exactly one bot message whose text is the reply for `findResponse(content)`. |
| ChatbotStore.ChatbotStore.ClearMessages | src/store/chatbotStore.ts:75-77 | Restores the list to the greeting alone. |
| Agenda.ParseTwoDigits | src/data/agenda.ts:13-14 | Two digit characters read back as 10a+b. |
| Agenda.ParsePadded | src/data/agenda.ts:13-14 | A number below 100, turned to text and padded to two characters, reads back as itself. |
| Agenda.ParseFormatTime | src/data/agenda.ts:13-14 | `HH:MM` formatting is a well-formed clock text and reads back to the same minute. |
| Agenda.FormatTimeInjective | src/data/agenda.ts:13-14 | Different minutes give different `HH:MM` texts. |
| Agenda.FormatTimeSplit | src/data/agenda.ts:13-14 | `HH:MM` is the padded hour, ':', the padded minute. The hour part has no ':'. |
| Agenda.DaySlots | src/data/agenda.ts:5-56 | The day has 21 slots. |
| Agenda.ExtendPrefix | src/data/agenda.ts:18-52 | Pushing slot n onto the first n slots of the day gives the first n+1. |
| Agenda.SessionSlot | src/data/agenda.ts:10-51 | One pass of a session loop builds the day's slot k field by field: the id, the formatted start and end, and the found meeting or a free slot. |
| Agenda.GenerateTimeSlots | src/data/agenda.ts:5-56 | The two loops and the lunch push build exactly the 21-slot day. |
| Agenda.DaySlotTimes | src/data/agenda.ts:9-42 | Morning slot i spans [600+15i, 615+15i], the lunch break [750, 870] and afternoon slot i [870+15i, 885+15i], each written `HH:MM`. |
| Agenda.SlotsMeet | src/data/agenda.ts:11-40 | Each slot ends at the minute the next one starts. |
| Agenda.DaySlotsContiguous | src/data/agenda.ts:11-40 | Each slot's end time equals the next slot's start time. |
| Agenda.DaySpan | src/data/agenda.ts:9-40 | The day runs from 10:00 to 17:00. |
| Agenda.DaySlotKinds | src/data/agenda.ts:16-51 | Slot 10 is the fixed lunch break: `slot-lunch`, 12:30–14:30, a break labelled "Pause déjeuner". Every other slot carries the first meeting with an equal start time and has type `meeting`. With no such meeting it is `free` with no meeting. |
| Agenda.SlotIdInjective | src/data/agenda.ts:19-47 | Different positions of the day have different ids. |
| Agenda.SlotIds | src/data/agenda.ts:19-47 | The ids of a slot list, position by position. |
| Agenda.DaySlotIdsDistinct | src/data/agenda.ts:19-47 | No two slots of the day share an id. |
| AgendaStore.EventLines | src/store/agendaStore.ts:45-54 | A meeting's VEVENT has nine lines. |
| AgendaStore.EventLinesFields | src/store/agendaStore.ts:42-54 | The nine lines are BEGIN:VEVENT, DTSTART, DTEND, SUMMARY, DESCRIPTION, LOCATION, STATUS:CONFIRMED, UID `<id>@businessconnect.lu` and END:VEVENT, with the meeting's fields in place. |
| AgendaStore.AllEventLines | src/store/agendaStore.ts:41-55 | The events of n meetings take 9n lines. |
| AgendaStore.AllEventLinesAppend | src/store/agendaStore.ts:41-55 | The events of `a + b` are those of `a` followed by those of `b`. |
| AgendaStore.EventBlock | src/store/agendaStore.ts:41-55 | Lines 9k .. 9k+8 of the events are exactly meeting k's VEVENT: one block per meeting, in meetings order. |
| AgendaStore.IcsFrame | src/store/agendaStore.ts:33-57 | The export starts with the VCALENDAR header lines and ends with END:VCALENDAR. |
| AgendaStore.IcsLines | src/store/agendaStore.ts:33-59 | When no meeting text holds a line break, the export's lines are the header, then each meeting's nine VEVENT lines in order, then END:VCALENDAR. |
| AgendaStore.IcsEmpty | src/store/agendaStore.ts:33-57 | With no meetings, the export is the header lines followed by END:VCALENDAR. |
| AgendaStore.EventDateCompact | src/store/agendaStore.ts:31-42 | Removing every '-' from 2025-02-15 gives 20250215. |
| AgendaStore.RemoveDashes | src/store/agendaStore.ts:42 | Removing every '-' from `y-m-d` whose parts have none gives `ymd`. |
| AgendaStore.StampOfFormattedTime | src/store/agendaStore.ts:42-43 | For an `HH:MM` time, DTSTART/DTEND is the compact date, 'T', the hour, the minute and "00". |
| AgendaStore.ExportStep | src/store/agendaStore.ts:45-54 | Appending one meeting's VEVENT text extends the export by exactly that meeting's lines. |
| AgendaStore.AgendaStore.constructor | src/store/agendaStore.ts:16-19 | The store starts with the given meetings, their day of slots and no selection. |
| AgendaStore.AgendaStore.SetSelectedMeeting | src/store/agendaStore.ts:21-23 | Only the selection changes. |
| AgendaStore.AgendaStore.GetMeetingById | src/store/agendaStore.ts:25-27 | Returns the first meeting with that id, or none when no meeting has it. |
| AgendaStore.AgendaStore.ExportToICS | src/store/agendaStore.ts:29-60 | The text the loop accumulates is exactly the export of the store's meetings. |
| Participants.WithFilter | src/store/participantsStore.ts:36-43 | Setting one key changes that filter only. The two others keep their values. |
| Participants.FilteredSpec | src/store/participantsStore.ts:64-91 | The filtered list is an order-preserving subsequence of the directory. A participant is in it exactly when it passes the type filter (unless "all"), the sector filter (unless "all") and, for a non-empty search, a case-insensitive substring match of name, pitch or description. A passing participant occurs in it exactly as often as in the directory, and a failing one not at all. |
| Participants.InitialFiltersKeepAll | src/store/participantsStore.ts:23-91 | With the initial filters, the filtered list is the whole directory. |
| Participants.SearchIgnoresCase | src/store/participantsStore.ts:80-83 | Searches that differ only in letter case select the same participants. |
| Participants.ParticipantsStore.constructor | src/store/participantsStore.ts:23-34 | The store starts with the given participants, no favourites and the initial filters. |
| Participants.ParticipantsStore.SetFilter | src/store/participantsStore.ts:36-43 | Only `filters[key]` changes. The other filters, the list and the favourites are untouched. |
| Participants.ParticipantsStore.ResetFilters | src/store/participantsStore.ts:45-47 | Restores `{type: 'all', sector: 'all', search: ''}`, after which every participant is listed. |
| Participants.ParticipantsStore.ToggleFavorite | src/store/participantsStore.ts:49-58 | Removes the id when it is a favourite and appends it otherwise. A duplicate-free list stays duplicate-free. |
| Participants.ParticipantsStore.GetParticipantById | src/store/participantsStore.ts:60-62 | Returns the first participant with that id, or none when nobody has it. |
| Participants.ParticipantsStore.GetFilteredParticipants | src/store/participantsStore.ts:64-91 | An order-preserving subsequence holding exactly the participants that pass the current filters, each as often as it is in the directory. |
| Lists.Find | src/store/participantsStore.ts:61 | `find` gives the first element that satisfies the test, or nothing when none does. |
| Lists.FindIndex | src/store/participantsStore.ts:61 | `findIndex` gives the first position that satisfies the test, or -1. |
| Lists.Filter | src/store/participantsStore.ts:67 | `filter` never grows the list, and an element is in the result exactly when it is in the list and passes. |
| Lists.FilterCount | src/store/participantsStore.ts:67 | `filter` keeps each passing element exactly as often as it occurs, and drops each failing one entirely. |
| Lists.FilterCounts | src/store/participantsStore.ts:67 | `FilterCount` for every element at once. |
| Lists.FilterIsSubseq | src/store/participantsStore.ts:67 | `filter` keeps the surviving elements in their original order. |
| Lists.FilterKeepsAll | src/store/participantsStore.ts:67 | `filter` with a test every element passes changes nothing. |
| Lists.FilterNoDup | src/store/preferencesStore.ts:48 | `filter` never creates a duplicate. |
| Lists.Without | src/store/participantsStore.ts:54 | `filter(y => y !== x)` removes every `x` and keeps every other element as often as it occurs. |
| Lists.WithoutNoDup | src/store/participantsStore.ts:54 | Filtering out one element keeps a list duplicate-free. |
| Lists.WithoutAt | src/store/preferencesStore.ts:48 | In a duplicate-free list, filtering out the element at position k removes that position only. |
| Lists.Toggle | src/store/participantsStore.ts:49-58 | After the toggle, `x` is present exactly when it was absent. Every other element is present exactly when it was. |
| Lists.ToggleNoDup | src/store/participantsStore.ts:49-58 | Toggling keeps a list duplicate-free. |
| Lists.ToggleTwiceAbsent | src/pages/OnboardingPage.tsx:75-91 | Toggling an absent element twice gives back the original list. |
| Lists.ToggleTwicePresent | src/pages/OnboardingPage.tsx:75-91 | Toggling a present element twice moves it to the end of the list. |
| Text.LowerChar | src/data/chatbotResponses.ts:83 | Lower-casing leaves no capital and leaves every other character as it is. |
| Text.LowerIdempotent | src/data/chatbotResponses.ts:83 | Lower-casing twice is lower-casing once. |
| Text.LowerSameUpToCase | src/data/chatbotResponses.ts:83 | Strings that differ only in letter case lower-case to the same string. |
| Text.ContainsIff | src/data/chatbotResponses.ts:87 | `includes` holds exactly when the substring occurs at some position. |
| Text.ContainsHasChar | src/data/chatbotResponses.ts:87 | Every character of a substring found in `s` is a character of `s`. |
| Text.MissingCharNotContained | src/data/chatbotResponses.ts:87 | A string with a character absent from `s` is not found in `s`. |
| Text.ContainsPrefixOf | src/data/chatbotResponses.ts:87 | A string that contains `a + b` contains `a`. |
| Text.Dec | src/data/agenda.ts:13 | `toString` of a natural number has at least one character. |
| Text.DecDigits | src/data/agenda.ts:13 | `toString` yields digits only, one digit exactly below ten. |
| Text.ParseDecDec | src/data/agenda.ts:13 | The decimal form reads back as the number. |
| Text.DecInjective | src/store/authStore.ts:53 | Different numbers have different decimal forms. |
| Text.Utf16Length | src/pages/RegisterPage.tsx:28 | `length` counts each character outside the Basic Multilingual Plane twice. It lies between the number of characters and twice that number. |
| Text.Utf16LengthBmp | src/pages/RegisterPage.tsx:28 | For a string inside the Basic Multilingual Plane, `length` is the number of characters. |
| Text.PadStart2 | src/data/agenda.ts:13 | `padStart(2, '0')` gives at least two characters and never shortens. |
| Text.PadStart2Shape | src/data/agenda.ts:13 | Padding keeps the string as a suffix and fills the front with '0'. |
| Text.PadDecTwoDigits | src/data/agenda.ts:13 | A number below 100, padded, is its tens digit followed by its units digit. |
| Text.IndexOf | src/store/agendaStore.ts:42 | The first position of a character, or -1 exactly when it is absent. |
| Text.RemoveFirstShape | src/store/agendaStore.ts:42 | `replace(':', '')` leaves a string without ':' unchanged. Otherwise it drops exactly one character, the first ':'. |
| Text.RemoveFirstSeparator | src/store/agendaStore.ts:42 | Replacing the first separator of `a + ':' + b` where `a` has none gives `a + b`. |
| Text.RemoveAll | src/store/agendaStore.ts:42 | `replace(/-/g, '')` removes every '-' and keeps every other character as often as it occurs. |
| Text.RemoveAllAppend | src/store/agendaStore.ts:42 | Removing every '-' works piece by piece. |
| Text.SplitUnlines | src/store/agendaStore.ts:33-57 | Newline-terminated single lines followed by a last piece split back into those lines and the piece. |
| Messages.Insert | src/store/messagesStore.ts:38 | Inserting adds exactly one copy of the message. |
| Messages.InsertSorted | src/store/messagesStore.ts:38 | Inserting into a time-sorted list keeps it time-sorted. |
| Messages.SortByTime | src/store/messagesStore.ts:38 | The sort by `createdAt` gives a time-sorted permutation of its input. |
| Messages.ConversationMessagesSpec | src/store/messagesStore.ts:35-39 | A conversation's messages come out in time order, each as often as it is in the inbox. A message is among them exactly when it belongs to that conversation. |
| Messages.MarkedRead | src/store/messagesStore.ts:64-68 | The messages of the conversation become read. Every message keeps its other fields and position. |
| Messages.Cleared | src/store/messagesStore.ts:69-71 | The conversation's unread counter becomes 0. Every other counter and field stays. |
| Messages.WithLastMessage | src/store/messagesStore.ts:54-58 | The new message becomes the conversation's last message. Every other conversation is unchanged. |
| Messages.Receiver | src/store/messagesStore.ts:46 | The receiver is the first conversation's participant id, or '' when the conversation is unknown. |
| Messages.TotalUnreadAppend | src/store/messagesStore.ts:105-107 | The unread total of `a + b` is the total of `a` plus the total of `b`. |
| Messages.TotalUnreadNonNegative | src/store/messagesStore.ts:105-107 | The total is never negative when no counter is. |
| Messages.TotalUnreadCleared | src/store/messagesStore.ts:62-75 | Marking a conversation read lowers the total by exactly its unread count. |
| Messages.NewConversationKeepsTotal | src/store/messagesStore.ts:89-102 | Prepending a conversation with no unread message keeps the total. |
| Messages.MessagesStore.constructor | src/store/messagesStore.ts:24-26 | The inbox starts with the given messages and conversations and nothing active. |
| Messages.MessagesStore.SetActiveConversation | src/store/messagesStore.ts:28-33 | A non-empty id becomes active and that conversation is marked read. A null id only clears the active id. |
| Messages.MessagesStore.GetConversationMessages | src/store/messagesStore.ts:35-39 | Exactly the conversation's messages, sorted ascending by creation time, each as often as it is in the inbox. |
| Messages.MessagesStore.SendMessage | src/store/messagesStore.ts:41-60 | Appends exactly one message from `current-user`, already read, to the conversation's receiver or to ''. It becomes that conversation's last message, and nothing else changes. |
| Messages.MessagesStore.MarkAsRead | src/store/messagesStore.ts:62-75 | Sets `read` on the conversation's messages and zeroes its counter only. The total drops by that counter. |
| Messages.MessagesStore.StartConversation | src/store/messagesStore.ts:77-103 | An existing conversation with the participant is returned, made active and nothing is added. An unknown participant gives '' and no change. Otherwise the list becomes the new conversation `conv-<now>` followed by the old list, and it is made active. The new conversation holds the first directory participant with that id, no last message, no unread message and the given creation time. |
| Messages.MessagesStore.GetTotalUnreadCount | src/store/messagesStore.ts:105-107 | The sum of the unread counters. It is never negative when no counter is. |
| Auth.CreateDemoUser | src/store/authStore.ts:52-73 | The new user carries the given email, type, name and sector. It has an empty pitch, description and lists, and onboarding not completed. Its three ids agree. The profile's and the account's creation times are two separate clock readings. |
| Auth.DemoUserIdsDistinct | src/store/authStore.ts:53-59 | Users created at different instants get different ids. |
| Auth.LoginUser | src/store/authStore.ts:88-114 | The demo profile is a startup exactly when the email contains "startup". The password plays no part. Onboarding is completed. The profile's and the account's creation times are two separate clock readings. |
| Auth.MergeNoChange | src/store/authStore.ts:153-161 | A patch that supplies nothing leaves the profile unchanged. |
| Auth.MergeIdempotent | src/store/authStore.ts:153-161 | Applying the same patch twice is applying it once. |
| Auth.MergeThen | src/store/authStore.ts:153-161 | Two successive patches act as one patch in which the later one wins. |
| Auth.MergeFields | src/store/authStore.ts:153-161 | A supplied field is taken over. An unsupplied field keeps its value. |
| Auth.AuthStore.constructor | src/store/authStore.ts:78-80 | No user, not authenticated, not loading. |
| Auth.AuthStore.Login | src/store/authStore.ts:82-123 | Signs in the demo user for the email, whatever the password. It returns true, is authenticated, has finished loading and has onboarding completed. |
| Auth.AuthStore.Register | src/store/authStore.ts:125-140 | Signs in the newly created user and returns true. The user is authenticated and has not completed onboarding. |
| Auth.AuthStore.Logout | src/store/authStore.ts:142-147 | No user and not authenticated. The loading flag is left as it was. |
| Auth.AuthStore.UpdateProfile | src/store/authStore.ts:149-162 | Without a user nothing happens. Otherwise the supplied profile fields are overwritten, and the user-level fields are kept. |
| Auth.AuthStore.CompleteOnboarding | src/store/authStore.ts:164-174 | Without a user nothing happens. Otherwise only `onboardingCompleted` becomes true. |
| Register.HasCharIn | src/pages/RegisterPage.tsx:29-30 | `/[lo-hi]/.test(s)` holds exactly when some character lies in lo..hi. |
| Register.ValidatePassword | src/pages/RegisterPage.tsx:27-32 | Holds exactly when the password's `length` is at least 8 UTF-16 code units, and it has an A–Z letter and a 0–9 digit. |
| Register.AstralPasswordExample | src/pages/RegisterPage.tsx:28 | "Ab1" followed by three emoji is six characters but nine code units long, so it passes the rule. |
| Register.AccountCheckRegistersIff | src/pages/RegisterPage.tsx:51-78 | `register` is reached exactly when the fields are filled, the password is valid and the confirmation matches. |
| Register.MissingFieldFirst | src/pages/RegisterPage.tsx:51-58 | A missing field is reported first, whatever the password. |
| Register.WeakPasswordBeforeMismatch | src/pages/RegisterPage.tsx:60-76 | A weak password is reported before a mismatched confirmation. |
| Register.StrongPasswordExample | src/pages/RegisterPage.tsx:27-32 | "Secret123" passes the rule. |
| Register.NoCapitalExample | src/pages/RegisterPage.tsx:29 | "secret123" fails the rule: it has no capital. |
| Register.TooShortExample | src/pages/RegisterPage.tsx:28 | "Secret1" fails the rule: it is too short. |
| Register.RegisterPage.constructor | src/pages/RegisterPage.tsx:17-25 | A blank form on step 1, with "startup" and "fintech" preselected. |
| Register.RegisterPage.HandleSubmit | src/pages/RegisterPage.tsx:34-87 | On step 1 it moves to step 2 and the session is untouched. Otherwise the outcome is the first failing check in order, and `register` runs, creating the user, only when all pass. |
| Onboarding.TextOr | src/pages/OnboardingPage.tsx:25-39 | `value \|\| fallback`: a present non-empty text is kept, and an absent or empty one gives the fallback. |
| Onboarding.InitialFormFromProfile | src/pages/OnboardingPage.tsx:25-39 | The form takes the profile's texts and lists. It falls back to Seed, 5 and "50-100" only where the profile has nothing, a team size of 0 included. |
| Onboarding.FormPatchEffect | src/pages/OnboardingPage.tsx:63-65 | Completion keeps who the participant is and takes every form field over. |
| Onboarding.SkipOffered | src/pages/OnboardingPage.tsx:360 | "Skip" is offered exactly on steps 2 and 3. |
| Onboarding.Onboarded | src/pages/OnboardingPage.tsx:63-73 | With a user, the profile is merged with the form and onboarding is completed. Without a user there is still none. |
| Onboarding.OnboardingPage.constructor | src/pages/OnboardingPage.tsx:25-39 | Opens on step 1 with the form built from the user. |
| Onboarding.OnboardingPage.HandleNext | src/pages/OnboardingPage.tsx:49-55 | Below step 4 it moves one step on. On step 4 it completes onboarding. The step stays within 1..4. |
| Onboarding.OnboardingPage.HandlePrev | src/pages/OnboardingPage.tsx:57-61 | Above step 1 it moves one step back. On step 1 it does nothing. The step stays within 1..4. |
| Onboarding.OnboardingPage.HandleComplete | src/pages/OnboardingPage.tsx:63-73 | `updateProfile(formData)` runs first, then `completeOnboarding()`. |
| Onboarding.OnboardingPage.ToggleLookingFor | src/pages/OnboardingPage.tsx:75-82 | Toggles the partnership type in the form's list. |
| Onboarding.OnboardingPage.ToggleThematic | src/pages/OnboardingPage.tsx:84-91 | Toggles the theme in the form's list. |
| Routes.ProtectedRoute | src/App.tsx:27-35 | Renders the page exactly when authenticated, and otherwise redirects to /login. |
| Routes.PublicRoute | src/App.tsx:38-49 | Renders the page exactly when not authenticated. An authenticated user with onboarding incomplete goes to /onboarding. Any other authenticated state, a missing user included, goes to /dashboard. |
| Routes.ExactlyOneGuardRenders | src/App.tsx:27-49 | In every session state exactly one of the two guards shows its page. |
| Routes.RegisteredGoesToOnboarding | src/App.tsx:41-43 | A newly registered user is sent from the public pages to onboarding. |
| Routes.LoggedInGoesToDashboard | src/App.tsx:45 | A signed-in demo user is sent to the dashboard. |
| Routes.OnboardedGoesToDashboard | src/App.tsx:45 | After onboarding is completed, the user is sent to the dashboard. |

## Left out

- zustand's `create`/`persist` middleware, the storage keys and `partialize` are library behaviour. Each store is a plain class.
- The one-second delays of `login` and `register` are left out. Both run to completion in one step.
- The chat reply's typing delay is modelled as an explicit second step: `DeliverReply` runs after `SendMessage` with the same content.
- Clock readings are parameters of the operations that read them: `Date.now()` as `now`, and `new Date()` as an integer timestamp or an ISO text.
- Message and conversation `createdAt` values are integer instants, not ISO texts. The sort compares them as numbers, as `getTime()` does.
- Messages.SortByTime: the model's insertion sort is stable. The model does not state whether JavaScript's `sort` keeps messages with equal times in their original order.
- Text.Lower folds A–Z and the Latin-1 capitals only. Unicode lower-casing is not modelled beyond them.
- The export separates lines with "\n", as the code does. The model therefore makes no claim of conformance to the CRLF line delimiting of section 3.1 of RFC 5545.
- AgendaStore.IcsLines assumes that the meeting texts hold no line break. A name, pitch or table with a "\n" would split its line further.
- Navigation after a submit and toast notices on the registration page are represented only by the `Outcome` and `Decision` values. Rendering, Tailwind classes and UI components are left out.
- Onboarding.OnboardingPage.HandleComplete: the success toast and the navigation to `/dashboard` that follow the two store calls (src/pages/OnboardingPage.tsx:67-72) have no value in the model; only the store update is stated.
- The mock participants, sample meetings and sample conversations are constructor parameters, not literal data.
- The step-1 profile-type check and the sector emptiness check of the registration page cannot fail. `RegisterData` uses the declared union types, which have no empty value, so those two checks are not modelled.
- A patch is one `Option` per field. A field explicitly set to `undefined` in the source cannot be expressed.
- The `register` of the session store always reports success, so its failure branch in the registration page is not modelled.
- The date formatting and deadline comparison of the preferences page, the ICS download and `window.open` belong to presentational pages. They are not part of this model.
- ChatbotResponses.FindResponseFirstMatch: the test that "xyz abc 123" gets the default entry is covered by this lemma for every message without a matching keyword. It is not restated for that literal text.
