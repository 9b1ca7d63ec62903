# Fox: a verified model of a Persian chatbot's bookkeeping

Fox is a Persian-speaking personal assistant that talks to its user in a
terminal or a browser. It hands each conversation to a local Ollama model or
to external chat services. Around those calls it keeps a good deal of plain
state of its own:

- a chat store of sessions, messages and remembered facts, and the context
  built from it for the model;
- who the user is: a profile with a relationship level, several users
  sharing one Fox, and a six-step first-meeting dialogue;
- what Fox has learned: taught replies and facts, boosted experience, a game
  layer of levels and achievements, a keyword and topic memory, and a mood
  history;
- time rules: notifications with quiet hours, reminders and tips, daily,
  weekly and monthly analytics, greetings by hour, and the season and
  Persian date;
- parsers and selection rules: question/answer datasets in TXT, CSV and JSON,
  picking the best of several answers, message converters for the external
  services, a registry of HTTP chat APIs with its `/api` commands, and the
  terminal's slash commands and chat loop.

This project models that state in Dafny and proves what each operation
promises. There is one module per source file, named after it:

- `memory.dfy` and `models.dfy` for the chat store;
- `conversation.dfy`, `user_profile.dfy`, `multi_user.dfy`,
  `user_profiles.dfy`, `introduction.dfy`, `fox_learning.dfy`,
  `fox_experience.dfy`, `fox_gamification.dfy`, `smart_memory.dfy`,
  `mood_tracker.dfy`, `smart_notifications.dfy`, `proactive_assistant.dfy`,
  `analytics_dashboard.dfy`, `time_responses.dfy`, `context_aware.dfy`,
  `url_downloader.dfy`, `multi_ai_system.dfy`, `multi_model_learning.dfy`,
  `llm_engine.dfy`, `ai_connector.dfy`, `api_manager.dfy` and
  `api_commands.dfy` for the rest of `backend/`;
- `cli_main.dfy` for `cli/main.py`.

Four helper modules stand in for what Python gives the program:

- `Common`: `None`, `min`, `random.choice` as a pick, filtering and counting;
- `Text`: `split`, `join`, `strip`, `lower`, `in`, `replace`, `str(int)`
  and `int(str)`;
- `OrderedMap`: dictionaries, whose iteration order matters in several places;
- `Sorting`: stable sorting and the top entries by count.

Where the source updates an object in place, the model uses a Dafny
`class`. This covers every manager object, with fields, `modifies` clauses
and `reads` clauses. Each method is proved against a specification function
of the old state and its inputs. Where the source loops, the model loops,
and the loop is proved with its invariants. Pure rules are functions, and
their properties are lemmas.

Some things the program reads from outside are parameters instead:

- the clock (whole seconds, or the calendar pieces a method formats);
- `random.choice` (a `pick` index into the list);
- the JSON files (fields holding what the file contains);
- the database (sequences of rows in id order);
- everything the network, the model clients and the SDKs return.

Where the program's documented design and its code differ, the model follows
the code:

- `save_message` on an unknown session id creates the conversation instead
  of failing.
- The title is derived whenever it is still the default, not only from the
  first turn.
- Name detection looks only for the Persian cue words. The code has no
  English phrasings such as "my name is".

## Model

| member | source | states |
|---|---|---|
| MemoryStore.GenerateTitle | backend/core/memory.py:190-194 | when the content's first five words, joined by spaces, exceed ten characters the title splits back into exactly those words; otherwise the title is the default, so a title is always the default or longer than ten characters |
| MemoryStore.FindConversation | backend/core/memory.py:36-38 | the position found is the first conversation with that session id; None means no conversation has it |
| MemoryStore.FindMemory | backend/core/memory.py:122 | the position found is the first memory row with that key; None means no row has it |
| MemoryStore.SavedWellFormed | backend/core/memory.py:31-63 | saving a message keeps ids consecutive, every message pointing at an existing conversation and timestamps non-decreasing, given a clock that does not go back |
| MemoryStore.SavedIds | backend/core/memory.py:36-51 | no conversation is lost, ids stay 1, 2, 3, … in row order, and the message goes to an existing id |
| MemoryStore.NewConversationTitled | backend/core/memory.py:40-47 | a conversation created for an unknown session id carries that id, is active, is stamped now and is titled from the message |
| MemoryStore.SavedTitles | backend/core/memory.py:57-61 | saving a message changes only the session's own conversation; a real title (neither empty nor the default) is never replaced, and the session's conversation with an empty or default title is titled from the message |
| MemoryStore.FilterChronological | backend/core/memory.py:78-80 | any selection of a time-ordered message list is time-ordered |
| MemoryStore.LatestChronological | backend/core/memory.py:78-88 | the latest messages of a conversation come out oldest first |
| MemoryStore.HistoryShape | backend/core/memory.py:66-92 | the history has at most `limit` entries, is empty for an unknown session, and runs oldest to newest |
| MemoryStore.HistoryAfterSave | backend/core/memory.py:31-92 | after saving, the history ends with the saved message and is one longer than before unless it was already at `limit` |
| MemoryStore.HistoryAfterSaveIs | backend/core/memory.py:70-88 | after a save, the session's history is that of the conversation that received the message |
| MemoryStore.HistoryBeforeSave | backend/core/memory.py:70-88 | before a save, the session's history is that of the target conversation, and empty for a new one |
| MemoryStore.LatestAfterSave | backend/core/memory.py:50-56 | appending a message makes it the newest of its conversation's latest messages |
| MemoryStore.SavedTarget | backend/core/memory.py:36-51 | after saving, the session id is found at the row whose id received the message |
| MemoryStore.RecentConversationsNewestFirst | backend/core/memory.py:94-115 | at most `limit` active conversations, most recently updated first, each with its message count, and no active conversation left out was updated later than one listed |
| MemoryStore.RecentRowsNewestFirst | backend/core/memory.py:98-100 | the rows are active conversations, as many as `limit` allows, newest first, and none left out outranks one listed |
| MemoryStore.UpsertMemoryRecall | backend/core/memory.py:117-138 | after saving, the key returns the new value and importance stamped now; the category stays the old one for an existing key; other keys are untouched; still one row per key |
| MemoryStore.OtherKeyUntouched | backend/core/memory.py:124-127 | updating the row of one key leaves every other key's lookup unchanged |
| MemoryStore.UpsertMemoryIdempotent | backend/core/memory.py:117-138 | saving the same memory twice at the same instant is saving it once |
| MemoryStore.ByImportanceOrder | backend/core/memory.py:148-151 | the order "importance, then creation time, both descending" is total and transitive |
| MemoryStore.GetMemoriesRanked | backend/core/memory.py:140-164 | at most `limit` rows, all of the asked category when one is given, ordered by importance and then creation time, both descending, and no row of the pool left out comes before a listed one in that order |
| MemoryStore.Reverse | backend/core/memory.py:88 | `reversed`: same length, elements in the opposite order |
| MemoryStore.SearchHitsNewestFirst | backend/core/memory.py:166-188 | exactly min(`limit`, number of matching messages) hits, each the hit of a message whose content is LIKE the query, with its content cut to 200 characters plus "...", newest first, and every matching message newer than a hit has its own hit in the list |
| MemoryStore.MentionsLiteral | backend/core/memory.py:170-172 | for a query without `%` or `_`, a message matches exactly when its content contains the query, ignoring ASCII case |
| MemoryStore.MentionsWildcard | backend/core/memory.py:170-172 | the queries "%" and "" match every message |
| MemoryStore.SearchRowsNewestFirst | backend/core/memory.py:170-174 | exactly min(`limit`, number of matching messages) rows, each a matching message of the store, newest first, and every matching message newer than a listed one is listed |
| Models.NewConversation | backend/database/models.py:12-20 | a new conversation row carries its id, session id and title, is active, and is stamped now for both creation and update |
| Models.NewMessage | backend/database/models.py:22-30 | a new message row carries its conversation, role, content and token count, stamped now |
| Models.NewMemory | backend/database/models.py:32-41 | a new memory row carries its key, value, category and importance, is created now and never expires |
| MemoryStore.MemoryManager.constructor | backend/core/memory.py:12-14 | the store starts empty |
| MemoryStore.MemoryManager.CreateSession | backend/core/memory.py:16-29 | one new active conversation with the default title and the drawn id; nothing else changes |
| MemoryStore.MemoryManager.SaveMessage | backend/core/memory.py:31-64 | the conversations and messages are those of the save; memories are unchanged; the store stays well formed |
| MemoryStore.MemoryManager.SaveMemory | backend/core/memory.py:117-138 | memories become the upsert of the key; conversations and messages are unchanged |
| MemoryStore.MemoryManager.GetConversationHistory | backend/core/memory.py:66-92 | at most `limit` entries, none for an unknown session, oldest first |
| MemoryStore.MemoryManager.GetMemoriesOf | backend/core/memory.py:140-164 | at most `limit` memories, all of the asked category when one is given, most important first |
| ConversationContext.NameAt | backend/core/conversation.py:99-101 | a word contributes at most one name, the word two places after it |
| ConversationContext.NamesBefore | backend/core/conversation.py:98-102 | the words before position `n` yield at most `n` names |
| ConversationContext.SaveNamesAppend | backend/core/conversation.py:99-102 | saving the names in two parts is saving them in one go |
| ConversationContext.SaveNamesWellFormed | backend/core/conversation.py:99-102 | saving names keeps one memory row per key |
| ConversationContext.SaveNamesOther | backend/core/conversation.py:99-102 | saving names changes no memory other than "user_name" |
| ConversationContext.ExtractedWellFormed | backend/core/conversation.py:91-108 | mining a turn keeps one memory row per key |
| ConversationContext.ExtractedRecall | backend/core/conversation.py:91-108 | after a turn with a name cue, "user_name" holds the word two places after the last cue, importance 9; without a cue, or when no cue is followed by a word two places on, it is unchanged; a turn with a like or dislike cue is stored whole under "user_likes" or "user_dislikes", importance 6, and without that cue the memory is unchanged |
| ConversationContext.DigestLinesSplit | backend/core/conversation.py:68-69 | the digest splits around any one memory's line |
| ConversationContext.DigestMentionsEveryMemory | backend/core/conversation.py:67-69 | the digest starts with its header and contains a "- key: value" line for every memory |
| ConversationContext.ContextOfShape | backend/core/conversation.py:41-58 | at most twenty context turns, in the order they were saved |
| ConversationContext.EnhancedContextPrefix | backend/core/conversation.py:60-77 | a system turn is put first exactly when some memory is stored; otherwise the context is unchanged |
| ConversationContext.EnhancedContextShape | backend/core/conversation.py:60-77 | at most 21 turns: the saved turns in order, with one system turn in front exactly when memories exist |
| ConversationContext.StartedWellFormed | backend/core/conversation.py:21-24 | starting a session keeps the store well formed |
| ConversationContext.AddedAppendsTurn | backend/core/conversation.py:30-39 | after `add_message` a session is set (a fresh one when there was none) and exactly the new turn has been appended to the messages |
| ConversationContext.AddedContextEndsWithTurn | backend/core/conversation.py:30-58 | after `add_message` the session's context ends with the new turn |
| ConversationContext.ConversationManager.constructor | backend/core/conversation.py:16-19 | no session and an empty store |
| ConversationContext.ConversationManager.StartNewSession | backend/core/conversation.py:21-24 | the new session id is current and the store has its conversation |
| ConversationContext.ConversationManager.SetSession | backend/core/conversation.py:26-28 | the given id becomes current and nothing else changes |
| ConversationContext.ConversationManager.AddMessage | backend/core/conversation.py:30-39 | the state becomes that of `Added`: lazy session, stored turn, memories mined from user turns |
| ConversationContext.ConversationManager.ExtractUserInfo | backend/core/conversation.py:91-108 | memories become the extracted memories; conversations and messages are unchanged |
| ConversationContext.ConversationManager.SaveNameCandidates | backend/core/conversation.py:98-102 | the name loop saves exactly the names found, in order |
| ConversationContext.ConversationManager.SaveNameAt | backend/core/conversation.py:100-102 | one loop step saves the name at that cue, if any |
| ConversationContext.ConversationManager.GetContextMessages | backend/core/conversation.py:41-58 | at most twenty turns, each with its timestamp, oldest first |
| ConversationContext.ConversationManager.GetEnhancedContext | backend/core/conversation.py:60-77 | the result is the enhanced context of the current state |
| ConversationContext.ConversationManager.Digest | backend/core/conversation.py:67-69 | the loop builds exactly the memory digest |
| ConversationContext.ConversationManager.SaveUserPreference | backend/core/conversation.py:87-89 | the key is upserted in category "preference" with importance 8; nothing else changes |
| ConversationContext.ConversationManager.GetConversationsList | backend/core/conversation.py:79-81 | at most ten summaries, most recently updated first, each the summary of an active stored conversation with its message count |
| ConversationContext.ConversationManager.SearchHistory | backend/core/conversation.py:83-85 | at most ten hits, newest first, each the hit of a stored message that contains the query |
| Profile.DefaultProfile | backend/core/user_profile.py:24-36 | a first-time profile with no name, no interests or traits, level 0, no interactions, created now |
| Profile.Clamp | backend/core/user_profile.py:71-72 | the level lands in [0, 10], is kept when already there, and goes to 0 below and to 10 above |
| Profile.RelationshipStatus | backend/core/user_profile.py:81-89 | one of the six status names; "غریبه" exactly at level 0 and "بهترین دوست" exactly above 8 |
| Profile.RelationshipTiers | backend/core/user_profile.py:81-89 | over levels 0-10 the status names are level 0, then one name per pair of levels |
| Profile.RelationshipTiersMonotone | backend/core/user_profile.py:81-89 | the tier never goes down as the level rises, and two levels share a status exactly when they share a tier |
| Profile.ProactiveAsks | backend/core/user_profile.py:91-93 | a proactive Fox (level 3 up) also asks questions (level 2 up), and is proactive exactly from the "friend" tier on |
| Profile.ConversationStarters | backend/core/user_profile.py:95-110 | three starters, and a fourth when there are interests |
| Profile.StarterAsksFirstInterest | backend/core/user_profile.py:106-108 | the fourth starter asks about the first interest; the first three are the same as with no interests |
| Profile.GreetingStyle | backend/core/user_profile.py:116-128 | a stranger (level 0) gets the fixed greeting; at every other level the greeting contains the name |
| Profile.StylesShareBands | backend/core/user_profile.py:116-154 | above level 0, two levels in the same band (up to 2, up to 5, above 5) get the same greeting and the same response style, and two levels in different bands get different greetings and different response styles; level 0 has its own greeting but shares the polite style |
| Profile.RandomQuestion | backend/core/user_profile.py:160-172 | the question is one of the six listed |
| Profile.UserProfile.constructor | backend/core/user_profile.py:14-36 | the object works on `data/user_profile.json` in the shared profile store and holds that file's profile, or the default one when there is no such file |
| Profile.UserProfile.SaveProfile | backend/core/user_profile.py:38-42 | the profile's own file is overwritten with the current profile and no other file changes |
| Profile.UserProfile.CompleteIntroduction | backend/core/user_profile.py:48-57 | exactly the five introduction fields change; afterwards the user is not new and the status is "آشنا"; the new profile is written to the profile's own file |
| Profile.UserProfile.AddInterest | backend/core/user_profile.py:63-67 | the interest is present afterwards, added only if absent, so the interests stay duplicate-free; the file is written only when the interest was added |
| Profile.UserProfile.UpdateRelationshipLevel | backend/core/user_profile.py:69-73 | the level becomes the clamped sum, always in [0, 10]; nothing else changes, and the new profile is written to the profile's own file |
| Profile.UserProfile.RecordInteraction | backend/core/user_profile.py:75-79 | the last interaction is now and the count goes up by one; nothing else changes, and the new profile is written to the profile's own file |
| MultiUser.IndexFrom | backend/core/multi_user.py:26-31 | the index file's contents, or no users and no last user when there is no file |
| MultiUser.Names | backend/core/multi_user.py:102 | the names of the index entries, in order |
| MultiUser.Refreshed | backend/core/multi_user.py:113-115 | the refresh loop keeps the number of entries |
| MultiUser.SwitchedNames | backend/core/multi_user.py:98-118 | a new name is appended once, a known name adds no entry, and `last_user` becomes the name |
| MultiUser.SwitchedUnique | backend/core/multi_user.py:102-110 | switching never makes two entries share a name |
| MultiUser.SwitchExistingRefreshes | backend/core/multi_user.py:111-115 | switching to a known user only refreshes `last_seen` on that user's entries |
| MultiUser.SwitchBackIsKnown | test_multi_user.py:1-79 | two users join an empty index; switching back to the first adds nothing |
| MultiUser.LoadedUser | backend/core/multi_user.py:129-142 | the current-user file's name when it has one, else the index's last user, else nobody |
| MultiUser.SwitchThenLoad | backend/core/multi_user.py:117-142 | after a switch, a restart loads the same user, from the current-user file or, without it, from the index |
| MultiUser.CueName | backend/core/multi_user.py:50-55 | a name found by the word scan is longer than one character |
| MultiUser.CueNameFirst | backend/core/multi_user.py:50-55 | the name found is the stripped word after the first cue that gives one |
| MultiUser.CueNameNone | backend/core/multi_user.py:50-55 | no name is found only when no cue gives one |
| MultiUser.DetectedUser | backend/core/multi_user.py:38-63 | a detected name is longer than one character; with no current user only a self cue can give a name |
| MultiUser.RelationAfterCue | backend/core/multi_user.py:47-61 | with a current user and "پسر" in the text, the relative is reported only when no self cue gave a name |
| MultiUser.LeadingCue | backend/core/multi_user.py:47-55 | a text that opens with a self cue and a name gives that name, whoever is current |
| MultiUser.StyleDifferentCases | backend/core/multi_user.py:65-85 | the style differs exactly for a warm user writing formally or a serious user writing informally |
| MultiUser.SuggestionCases | backend/core/multi_user.py:148-159 | a suggestion names the current user only as the new-user label on a style change; there is none only when the style matches and nobody new was detected |
| MultiUser.ProfilePathInjective | backend/core/multi_user.py:89 | two different names never share a profile file |
| MultiUser.MultiUserManager.constructor | backend/core/multi_user.py:14-24 | the files, the shared profile store among them, are as given, and the current user is the one `load_current_user` picks |
| MultiUser.MultiUserManager.GetUserProfile | backend/core/multi_user.py:87-96 | a fresh profile object on the user's own file `data/profiles/<name>.json` in the shared store, holding what that file holds now (or the default profile); when the file exists the object is in step with it |
| MultiUser.MultiUserManager.LoadCurrentUser | backend/core/multi_user.py:129-142 | the current user is the one the files name; an earlier current user is kept when the current-user file has nobody |
| MultiUser.MultiUserManager.RefreshLastSeen | backend/core/multi_user.py:113-115 | the loop computes exactly the refreshed entries |
| MultiUser.MultiUserManager.SwitchUser | backend/core/multi_user.py:98-127 | "is new" exactly when the name was not in the index; the index is the switched one, the current-user file names the user, and a fresh profile object on the user's own file, holding what that file holds now, becomes current |
| MultiUser.MultiUserManager.DetectUserChange | backend/core/multi_user.py:38-63 | the result is the detected user for the current name |
| MultiUser.SwitchAwayAndBack | test_multi_user.py:32-62 | the first user completes the introduction, a second user is switched to and introduced, and switching back finds the first user known, with the interests and traits given and the status "آشنا" |
| MultiUser.MultiUserManager.SuggestUserSwitch | backend/core/multi_user.py:148-159 | the result is the suggestion for the detected name, the current name and the style check |
| MultiUser.MultiUserManager.AllUsers | backend/core/multi_user.py:144-146 | the users of the index file, in its order, and none when there is no index file |
| MultiUser.MultiUserManager.IsWritingStyleDifferent | backend/core/multi_user.py:65-85 | never without a current user; the style differs only for a warm user writing formally or a serious user writing informally, and never for a user who is neither |
| UserProfiles.NewProfile | backend/core/user_profiles.py:22-50 | a fresh profile carries the name, the relationship and the creation time, has no messages and has learned nothing |
| UserProfiles.MergeLaws | backend/core/user_profiles.py:70 | a dictionary update with nothing changes nothing, a whole profile replaces everything, and updating twice is updating once |
| UserProfiles.UpdatedProfile | backend/core/user_profiles.py:66-74 | a missing profile stays missing; an existing one takes every key the update sets, keeps the rest and is stamped with the time; no other file changes |
| UserProfiles.StatsCountOne | backend/core/user_profiles.py:136-147 | one message adds exactly one to the count and stamps the message and activity times; nothing else changes and no profile is created |
| UserProfiles.StatsCountMany | backend/core/user_profiles.py:136-147 | counting a run of messages adds their number to the count |
| UserProfiles.EnsuredProfile | backend/core/user_profiles.py:99-108 | afterwards the user has a profile: the stored one, or a fresh one whose relationship is "کاربر اصلی" for the main user and "دوست" for anyone else; asking again creates nothing |
| UserProfiles.ContextKept | backend/core/user_profiles.py:119-130 | the relationship context is not changed by an update that does not set the relationship, nor by counting a message |
| UserProfiles.ContextAfterEnsured | backend/core/user_profiles.py:99-130 | once the current profile exists, the main user's context is "کاربر اصلی حامد" and anyone else's is their relationship followed by " حامد" |
| UserProfiles.ContextAfterCreate | backend/core/user_profiles.py:22-56 | a profile created with a relationship reports that relationship in its context |
| UserProfiles.NewUserCue | backend/core/user_profiles.py:87-93 | a name found by the word scan is longer than one character and is not حامد |
| UserProfiles.NewUserCueFirst | backend/core/user_profiles.py:88-92 | a name found is the stripped word after the first cue that gives one |
| UserProfiles.NewUserCueNone | backend/core/user_profiles.py:88-93 | no name is found only when no cue gives one |
| UserProfiles.DetectedNewUser | backend/core/user_profiles.py:76-93 | a name is found only in a message holding an introduction pattern, and it is longer than one character and not حامد |
| UserProfiles.OpeningCue | backend/core/user_profiles.py:84-92 | a message that opens with "من" or "منم" and a new name gives that name |
| UserProfiles.CuePassesGate | backend/core/user_profiles.py:78-85 | a message holding a cue word passes the pattern check |
| UserProfiles.ListedUsers | backend/core/user_profiles.py:110-117 | the listing gives at most one user per file |
| UserProfiles.ListedUsersFromFiles | backend/core/user_profiles.py:113-116 | every listed user comes from a profile file, and every profile file gives a user |
| UserProfiles.RemoveTrailing | backend/core/user_profiles.py:115 | removing the suffix gives back the name when the suffix occurs only at the end |
| UserProfiles.ListedSavedUser | backend/core/user_profiles.py:19-20 | a user without an underscore whose profile file is in the listing is listed under that name |
| UserProfiles.UserProfileManager.constructor | backend/core/user_profiles.py:10-14 | both the current and the main user are حامد |
| UserProfiles.UserProfileManager.CreateUserProfile | backend/core/user_profiles.py:22-56 | the fresh profile is returned and overwrites any file of that name |
| UserProfiles.UserProfileManager.GetUserProfile | backend/core/user_profiles.py:58-64 | a profile is returned exactly when its file exists, and it is that file's profile |
| UserProfiles.UserProfileManager.GetRelationshipContext | backend/core/user_profiles.py:119-130 | a user without a profile is "دوست جدید", the main user is "کاربر اصلی حامد", and anyone else is their stored relationship followed by " حامد" |
| UserProfiles.UserProfileManager.UpdateUserProfile | backend/core/user_profiles.py:66-74 | the files become the updated ones |
| UserProfiles.UserProfileManager.DetectNewUser | backend/core/user_profiles.py:76-93 | the result is the detected new user |
| UserProfiles.UserProfileManager.SwitchUser | backend/core/user_profiles.py:95-97 | the current user becomes the name and no file changes |
| UserProfiles.UserProfileManager.GetCurrentUserProfile | backend/core/user_profiles.py:99-108 | the files become the ensured ones and the profile returned is the current user's |
| UserProfiles.UserProfileManager.GetAllUsers | backend/core/user_profiles.py:110-117 | the users listed from the directory listing |
| UserProfiles.UserProfileManager.UpdateConversationStats | backend/core/user_profiles.py:136-147 | the files become the ones with the message counted |
| Introduction.EveryStepHasMessages | backend/core/introduction.py:28-69 | every step of the dialogue has a message list, so the fallback text is never returned |
| Introduction.MatchingFinds | backend/core/introduction.py:173-192 | a label is found exactly when one of its keywords occurs in the text; with distinct labels each is found at most once |
| Introduction.MatchingInOrder | backend/core/introduction.py:188-190 | the labels found keep the order of the keyword table |
| Introduction.ExtractInterests | backend/core/introduction.py:173-192 | the interests are the labels whose keywords occur in the lower-cased text |
| Introduction.ExtractPersonalityTraits | backend/core/introduction.py:194-213 | the traits are the labels whose keywords occur in the lower-cased text |
| Introduction.ExtractLabels | backend/core/introduction.py:187-192 | the shared loop finds exactly the matching labels, in table order |
| Introduction.ExtractedAreDistinct | backend/core/introduction.py:176-206 | no interest and no trait is extracted twice |
| Introduction.RemoveEach | backend/core/introduction.py:111-113 | the loop removes every listed word in turn and strips after each |
| Introduction.CleanOverShorter | backend/core/introduction.py:108-113 | cleaning never lengthens the reply |
| Introduction.ShortInputRejected | backend/core/introduction.py:115-116 | a reply too short for a name is never accepted as one |
| Introduction.NameResponses | backend/core/introduction.py:121-128 | an accepted name has three possible replies |
| Introduction.AdvanceSteps | backend/core/introduction.py:71-103 | each reply moves one step on, a name given right after Fox introduces itself jumps to step 3, and nothing moves once the six steps are done |
| Introduction.AskNameAlwaysAdvances | backend/core/introduction.py:93-96 | the name question always moves on, keeping the earlier name when this one is rejected |
| Introduction.FourRepliesDoNotFinish | backend/core/introduction.py:234-236 | four replies after the start still leave the introduction incomplete |
| Introduction.CompletionReached | backend/core/introduction.py:71-103 | from the start, the fifth or the sixth reply completes the introduction |
| Introduction.Introduced | backend/core/introduction.py:215-222 | without any answers the profile is written with the name "دوست" and no interests or traits; the user is no longer new |
| Introduction.CompletionMessages | backend/core/introduction.py:224-232 | there are three completion messages |
| Introduction.InterestReplies | backend/core/introduction.py:137-148 | three replies for found interests, two when none were found |
| Introduction.TraitReplies | backend/core/introduction.py:158-169 | three replies for found traits, two when none were found |
| Introduction.CompletionStepReply | backend/core/introduction.py:101-103 | at the completion step the step moves to 6 and the reply is a completion message alone |
| Introduction.FoxIntroduction.constructor | backend/core/introduction.py:11-21 | the dialogue starts at step 0 with nothing recorded |
| Introduction.FoxIntroduction.StartIntroduction | backend/core/introduction.py:23-26 | the step goes back to 0 and the greeting message is returned |
| Introduction.FoxIntroduction.IsIntroductionComplete | backend/core/introduction.py:234-236 | the introduction is complete exactly when no further reply moves the dialogue: when complete every reply leaves the state as it is, and otherwise every reply moves the step on |
| Introduction.FoxIntroduction.CompleteIntroduction | backend/core/introduction.py:215-232 | the profile is completed from the recorded answers and written to the profile's file, and a completion message with the name is returned |
| Introduction.FoxIntroduction.ProcessName | backend/core/introduction.py:105-128 | the cleaned name is recorded when accepted, and the matching reply is returned |
| Introduction.FoxIntroduction.ProcessResponse | backend/core/introduction.py:71-103 | the state advances as the dialogue says, the reply is the step's, and the profile is completed and written to its file exactly when this reply completes the introduction; otherwise no file changes |
| Introduction.FoxIntroduction.CompletionStep | backend/core/introduction.py:101-103 | the completion step moves on and answers with the completion message, completing the profile and writing it to its file |
| Introduction.FoxIntroduction.SelfIntroductionStep | backend/core/introduction.py:81-92 | the self-introduction step advances and replies as the dialogue says |
| Introduction.FoxIntroduction.AskNameStep | backend/core/introduction.py:93-96 | the ask-name step advances and replies as the dialogue says |
| Introduction.FoxIntroduction.ProcessInterests | backend/core/introduction.py:130-150 | the interests are recorded, the step advances, and the reply is the interest reply followed by the next question |
| Introduction.FoxIntroduction.ProcessPersonality | backend/core/introduction.py:152-171 | the traits are recorded, the step advances, the profile is completed and written to its file, and the reply ends with the completion message |
| FoxLearning.EmptyLearning | backend/core/fox_learning.py:28-36 | without a learning file nothing is learned: every table and list is empty |
| FoxLearning.LearningFileNames | backend/core/fox_learning.py:15-20 | a profile dictionary without a name learns into حامد's file, a named one into its own, as a profile object of that name would |
| FoxLearning.TeachResponseStores | backend/core/fox_learning.py:44-52 | the reply sits under the lower-cased trigger with no uses, replacing any earlier reply for it; other triggers and tables are untouched and the table grows only for a new trigger |
| FoxLearning.TeachFactAppends | backend/core/fox_learning.py:54-64 | the fact is appended to its topic's list, which keeps every earlier fact; other topics are untouched and the fact total grows by one |
| FoxLearning.TeachCultureStores | backend/core/fox_learning.py:66-73 | the note sits under the country, replacing any earlier one; the keys stay distinct and every other country is untouched |
| FoxLearning.TeachRoutineStores | backend/core/fox_learning.py:75-82 | the description sits under the routine's name, replacing any earlier one; the keys stay distinct and every other routine is untouched |
| FoxLearning.TeachPreferenceStores | backend/core/fox_learning.py:84-91 | the preference sits under its category, replacing any earlier one; the keys stay distinct and every other category is untouched |
| FoxLearning.FactTotalUpdate | backend/core/fox_learning.py:122 | replacing one topic's list changes the fact total by the difference in length |
| FoxLearning.FirstKeyIn | backend/core/fox_learning.py:98-99 | the scan stops at the first entry whose key occurs in the input, and skips only entries that do not |
| FoxLearning.FirstTopicIn | backend/core/fox_learning.py:106-109 | the scan stops at the first topic that occurs in the input and has facts |
| FoxLearning.ReplyCountsOneUse | backend/core/fox_learning.py:97-102 | only the first matching taught reply is used and only its use count moves, by one; every trigger keeps its place and every other entry, table and statistic stays |
| FoxLearning.NoReplyWhenNothingMatches | backend/core/fox_learning.py:93-116 | nothing is answered exactly when no trigger, no topic with facts and no country occurs in the lower-cased input |
| FoxLearning.TaughtReplyAnswers | backend/core/fox_learning.py:44-102 | a taught trigger occurring in the input, with no other trigger occurring, is answered with its reply |
| FoxLearning.TaughtFactAnswers | backend/core/fox_learning.py:54-109 | a taught fact about a topic occurring in the input, with no trigger and no other topic occurring, is the answer |
| FoxLearning.FoxLearningSystem.constructor | backend/core/fox_learning.py:13-36 | the learning file is named after the profile and the learned data is its contents, or nothing learned |
| FoxLearning.FoxLearningSystem.TeachResponse | backend/core/fox_learning.py:44-52 | the data becomes the taught one and is saved, and the confirmation names the trigger and the reply |
| FoxLearning.FoxLearningSystem.TeachFact | backend/core/fox_learning.py:54-64 | the data becomes the one with the fact appended and is saved, and the confirmation names the topic |
| FoxLearning.FoxLearningSystem.TeachCulture | backend/core/fox_learning.py:66-73 | the culture note is stored and saved, and the confirmation names the country |
| FoxLearning.FoxLearningSystem.TeachRoutine | backend/core/fox_learning.py:75-82 | the routine is stored and saved, and the confirmation names it |
| FoxLearning.FoxLearningSystem.TeachPreference | backend/core/fox_learning.py:84-91 | the preference is stored and saved, and the confirmation names its category |
| FoxLearning.FoxLearningSystem.GetLearnedResponse | backend/core/fox_learning.py:93-116 | the answer is the learned reply for the input, the use count moves as the reply rule says, and the file is written only when a taught reply is used |
| FoxLearning.FoxLearningSystem.LookUpKnowledge | backend/core/fox_learning.py:105-114 | the fact and culture scans give the knowledge reply |
| FoxLearning.FoxLearningSystem.FindKey | backend/core/fox_learning.py:97-99 | the loop finds the first entry whose key occurs in the input |
| FoxLearning.FoxLearningSystem.FindTopic | backend/core/fox_learning.py:106-108 | the loop finds the first topic that occurs in the input and has facts |
| FoxLearning.FoxLearningSystem.GetLearningStats | backend/core/fox_learning.py:118-127 | the taught replies, the culture notes, the preferences, the routines and the teaching sessions are counted by their tables' sizes; the fact count is the total number of facts over all topics, so it is at least each topic's number and is zero exactly when no topic has a fact |
| FoxExperience.AccelerateLaws | backend/core/fox_experience.py:44-76 | a day is worth 30 interactions and 3 relationship levels, the level stopping at 10; interactions and artificial experience grow by the same amount, so the real experience is unchanged, and the report gives the old and new values |
| FoxExperience.AccelerateLevelBounds | backend/core/fox_experience.py:51 | boosting never lifts the level past 10, and boosting forward raises it unless it reaches 10 |
| FoxExperience.SyntheticFromTables | backend/core/fox_experience.py:78-96 | only the programming and music patterns are ever added, and something is added exactly when the interests include programming or music |
| FoxExperience.LabelRank | backend/core/fox_experience.py:109-119 | the rank is the number of thresholds the interaction count has passed |
| FoxExperience.LabelByRank | backend/core/fox_experience.py:109-119 | the experience label is the one for that rank |
| FoxExperience.LabelMonotone | backend/core/fox_experience.py:109-119 | more interactions never give a lower label |
| FoxExperience.AgeFromInteractions | backend/core/fox_experience.py:98-130 | 30 interactions make a day, 900 a month and 10800 a year; real and artificial experience add up to the total |
| FoxExperience.ContextualNeedsExperience | backend/core/fox_experience.py:132-150 | Fox answers on its own only past 500 interactions: past 2000 for a problem or a request to teach, up to 2000 for a greeting |
| FoxExperience.LabelGroups | backend/core/fox_experience.py:137-145 | the expert labels are exactly the counts past 2000, the middle labels exactly those past 500 and up to 2000 |
| FoxExperience.FoxExperienceSystem.constructor | backend/core/fox_experience.py:13-42 | the system holds the profile and no learned patterns |
| FoxExperience.FoxExperienceSystem.AccelerateExperience | backend/core/fox_experience.py:44-76 | the profile is boosted, the synthetic patterns for its interests are appended, the profile is written to its file, and the report is returned |
| FoxExperience.FoxExperienceSystem.AddSyntheticKnowledge | backend/core/fox_experience.py:78-96 | the patterns for the interests are appended in interest order |
| FoxExperience.FoxExperienceSystem.BoostFoxIntelligence | backend/core/fox_experience.py:152-168 | the profile gets thirty days per month of experience and then every wise trait, each added once, and is written to its file |
| FoxExperience.FoxExperienceSystem.GetExperienceLevel | backend/core/fox_experience.py:98-130 | the total is the profile's interaction count; 30 interactions make a day, 900 a month and 10800 a year; real and artificial experience add up to the total; the label is the one for the number of thresholds passed |
| FoxExperience.FoxExperienceSystem.GenerateContextualResponse | backend/core/fox_experience.py:132-150 | an answer exactly past 2000 interactions for a problem or a request to teach, or past 500 and up to 2000 for a greeting |
| FoxExperience.FoxExperienceSystem.AddMissing | backend/core/fox_experience.py:161-163 | the loop appends each trait not present yet |
| FoxGamification.Loaded | backend/core/fox_gamification.py:15-45 | the game file's values where present, the defaults otherwise, and the defaults without a file |
| FoxGamification.GainedCases | backend/core/fox_gamification.py:64-73 | a non-zero amount is the gain; otherwise the reward table decides, 5 for a type it does not list |
| FoxGamification.CountedOnlyThree | backend/core/fox_gamification.py:76-82 | only conversations, questions and learning are counted, by one; no other statistic moves |
| FoxGamification.LevelUp | backend/core/fox_gamification.py:100-121 | a level check never touches the achievements |
| FoxGamification.LevelUpCases | backend/core/fox_gamification.py:100-121 | at most one level per check: with enough experience the level rises by one, that experience is spent and ten friendship points are earned; otherwise nothing changes and there is no message |
| FoxGamification.UnearnedEarn | backend/core/fox_gamification.py:139-148 | earning an achievement not held yet lowers the count of unearned ones, and earning never raises it |
| FoxGamification.EarnLowers | backend/core/fox_gamification.py:142-147 | earning an achievement appends its id, lowers the unearned count and keeps the ids distinct |
| FoxGamification.Gain | backend/core/fox_gamification.py:62-98 | a gain only adds achievements from the list of eight, never repeats one, and raises the level by at most one plus one per achievement earned |
| FoxGamification.Credited | backend/core/fox_gamification.py:73-82 | crediting experience leaves the level and achievements alone |
| FoxGamification.GainUnfold | backend/core/fox_gamification.py:73-98 | a gain is the credit, then the level check, then the achievement check, and its message combines theirs |
| FoxGamification.Check | backend/core/fox_gamification.py:123-156 | an achievement check keeps every held achievement, adds only listed ones, none twice, and each level it adds pays for an achievement |
| FoxGamification.CheckFrom | backend/core/fox_gamification.py:139-151 | the same bounds for the loop from any achievement on |
| FoxGamification.GainStateIgnoresPick | backend/core/fox_gamification.py:117-121 | the pick only chooses the level-up wording: the state a gain leaves, and the achievement check after the level check, are the same for any two picks |
| FoxGamification.CheckFromIgnoresPick | backend/core/fox_gamification.py:139-151 | the achievement loop gives the same state and names for any two picks |
| FoxGamification.NeverTwice | backend/core/fox_gamification.py:139-141 | after a check no id is held twice, every earlier one is still held, and at most eight were added |
| FoxGamification.PersonalityTier | backend/core/fox_gamification.py:164-171 | the personality tier is one of four |
| FoxGamification.PersonalityByTier | backend/core/fox_gamification.py:164-171 | the personality is named by the tier, and a higher level never has a lower tier |
| FoxGamification.MoodRank | backend/core/fox_gamification.py:194-203 | the mood is one of four |
| FoxGamification.MoodByRank | backend/core/fox_gamification.py:196-203 | the mood thresholds are strict, and more friendship points never give a lower mood |
| FoxGamification.FoxGame.constructor | backend/core/fox_gamification.py:11-45 | the state is the loaded one and nothing has been saved |
| FoxGamification.FoxGame.GainExperience | backend/core/fox_gamification.py:62-98 | the state and the message are the gain's, and the state is saved |
| FoxGamification.FoxGame.CheckLevelUp | backend/core/fox_gamification.py:100-121 | the state and the message are the level check's, and nothing is saved |
| FoxGamification.FoxGame.CheckAchievements | backend/core/fox_gamification.py:123-156 | the state and the message are the achievement check's; the state is saved exactly when something was earned |
| FoxGamification.FoxGame.EarnAchievement | backend/core/fox_gamification.py:142-151 | one earning step records the achievement, gains its 50 experience, and saves |
| FoxGamification.FoxGame.GetFoxMood | backend/core/fox_gamification.py:194-203 | the mood is the one for the rank of the friendship points, and Fox is in love exactly past 100 points |
| SmartMemory.RunLength | backend/core/smart_memory.py:94 | the token scan takes the whole leading run of word characters and stops at the first other character |
| SmartMemory.WordRuns | backend/core/smart_memory.py:94 | every token found is a non-empty run of word characters |
| SmartMemory.WordRunsOfJoin | backend/core/smart_memory.py:94 | words joined by spaces are found again, in order |
| SmartMemory.ExtractKeywordsSpec | backend/core/smart_memory.py:88-97 | the keywords are the lower-cased tokens longer than two characters that are not stop words, in order, cut at ten |
| SmartMemory.TopicIndex | backend/core/smart_memory.py:110-112 | the scan stops at the first topic with a keyword in the text |
| SmartMemory.TopicFirstMatch | backend/core/smart_memory.py:99-114 | the topic is the first in table order with a keyword in the lower-cased text, or the general topic when none has |
| SmartMemory.TopicNonEmpty | backend/core/smart_memory.py:72-73 | every topic has a name, so the topic counter is always bumped |
| SmartMemory.QuestionTypeCases | backend/core/smart_memory.py:125-130 | a question mark makes a question; a request is a message with a request word and no question mark |
| SmartMemory.NewEntry | backend/core/smart_memory.py:54-67 | the log entry carries the time, the input and the reply |
| SmartMemory.RememberedLog | backend/core/smart_memory.py:69 | the conversation is appended as the newest entry and at most the thousand most recent are kept |
| SmartMemory.RememberedTopics | backend/core/smart_memory.py:72-73 | the entry's topic counter rises by one and every other topic's stays |
| SmartMemory.RememberedKeywords | backend/core/smart_memory.py:76-77 | each keyword's counter rises by the number of times it occurs in the entry |
| SmartMemory.AnalyzedCounts | backend/core/smart_memory.py:116-132 | one more conversation in the hour's slot and one more of its question type; every other counter stays |
| SmartMemory.ScoredNewestFirst | backend/core/smart_memory.py:141-163 | only conversations with a positive score are kept, each from the window scanned |
| SmartMemory.RelevantContextSpec | backend/core/smart_memory.py:134-168 | at most `limit` conversations, each from the last hundred with a positive score, in descending order of score; none left out scores higher than one kept |
| SmartMemory.SuggestionsFor | backend/core/smart_memory.py:210-212 | every suggestion belongs to one of the given topics |
| SmartMemory.SuggestedTopicsSpec | backend/core/smart_memory.py:195-214 | at most five suggestions, each belonging to one of the three most frequent topics |
| SmartMemory.UserInsights | backend/core/smart_memory.py:170-193 | no insights exactly when the log is empty; otherwise the total, at most five topics, at most three hours and the newest entry's time |
| SmartMemory.SmartMemory.constructor | backend/core/smart_memory.py:13-41 | each file's contents when it exists, empty collections otherwise |
| SmartMemory.SmartMemory.AddConversation | backend/core/smart_memory.py:52-86 | the memory remembers the new entry and the patterns are analysed for the input |
| SmartMemory.SmartMemory.MakeEntry | backend/core/smart_memory.py:57-67 | the entry built is the new entry for the input |
| SmartMemory.SmartMemory.CountAll | backend/core/smart_memory.py:76-77 | the loop adds one to each keyword's counter per occurrence |
| SmartMemory.SmartMemory.AnalyzePatterns | backend/core/smart_memory.py:116-132 | the patterns become the analysed ones and the memory is unchanged |
| SmartMemory.SmartMemory.DetectTopic | backend/core/smart_memory.py:99-114 | the result is the topic of the text |
| SmartMemory.SmartMemory.GetRelevantContext | backend/core/smart_memory.py:134-168 | the result is the relevant context of the log for the input |
| SmartMemory.SmartMemory.ScoreRecent | backend/core/smart_memory.py:141-163 | the loop keeps the positively scored conversations, newest first |
| SmartMemory.SmartMemory.SuggestTopics | backend/core/smart_memory.py:195-214 | the result is the suggestions for the topic counters |
| SmartMemory.SmartMemory.CollectSuggestions | backend/core/smart_memory.py:210-212 | the loop collects the suggestions of the most frequent topics, in order |
| SmartMemory.SmartMemory.GetUserInsights | backend/core/smart_memory.py:170-193 | no insights exactly when no conversation is logged; otherwise the count of conversations, the five (or fewer) most frequent topics and the three (or fewer) most active hours, each list by descending count and none left out counting more than one listed |
| MoodTracker.Score | backend/core/mood_tracker.py:42-43 | a list's score is at most its number of words |
| MoodTracker.ScoreCounts | backend/core/mood_tracker.py:42-43 | the score is 0 exactly when no word of the list occurs, and the whole list's length exactly when every word does |
| MoodTracker.MoodCases | backend/core/mood_tracker.py:45-50 | positive exactly when more positive words occur, negative exactly when more negative words do, neutral on a tie |
| MoodTracker.LoggedEntry | backend/core/mood_tracker.py:53-65 | the entry becomes the newest, at most thirty are kept, and the snippet is the first fifty characters followed by "..." for a longer message |
| MoodTracker.RepliesFor | backend/core/mood_tracker.py:91 | a mood has replies exactly when the table lists it, and they are its list; the error case is an absent list |
| MoodTracker.MoodResponseFromList | backend/core/mood_tracker.py:70-91 | a reply comes from the list of its own mood, and a mood without a list gets none |
| MoodTracker.CountMood | backend/core/mood_tracker.py:99-101 | a mood's count is at most the number of entries |
| MoodTracker.Stats | backend/core/mood_tracker.py:93-109 | there are no statistics exactly when no mood is recorded |
| MoodTracker.CountsSum | backend/core/mood_tracker.py:98-103 | the three counts add up to at most the total, and exactly to it when every entry has one of the three moods |
| MoodTracker.RecordedMoodsKnown | backend/core/mood_tracker.py:38-65 | every entry recorded by the analysis has one of the three moods |
| MoodTracker.MoodTracker.constructor | backend/core/mood_tracker.py:10-30 | the history is the file's when it can be read, an empty one otherwise |
| MoodTracker.MoodTracker.AnalyzeMood | backend/core/mood_tracker.py:38-68 | the mood of the message is returned and the history has the entry logged |
| MoodTracker.MoodTracker.GetMoodStats | backend/core/mood_tracker.py:93-109 | no statistics exactly when no mood is recorded; otherwise the total is the number of entries, each of the positive, negative and neutral counts is the number of entries with that mood, the three counts add up to at most it, and exactly to it when every entry has one of the three moods |
| SmartNotifications.ShouldSendCases | backend/core/smart_notifications.py:201-223 | disabled notifications and switched-off types are never sent; otherwise only the quiet hours decide |
| SmartNotifications.QuietCases | backend/core/smart_notifications.py:216-221 | quiet hours that wrap midnight hold from the start on or up to the end; otherwise between them; both ends are quiet |
| SmartNotifications.DefaultSwitchesNeverMatch | backend/core/smart_notifications.py:49-54 | no notification type is named like a default switch, so every type falls back to sending and only the quiet hours decide |
| SmartNotifications.Marked | backend/core/smart_notifications.py:225-239 | marking keeps the number of notifications |
| SmartNotifications.MarkedOnlyFirst | backend/core/smart_notifications.py:227-230 | marking changes only the first notification with that id, and only its one flag; without such a notification nothing changes |
| SmartNotifications.StatsBounds | backend/core/smart_notifications.py:261-266 | sent, read and pending are each at most the total, and sent and pending together are too |
| SmartNotifications.Updated | backend/core/smart_notifications.py:256-258 | each setting the update gives replaces the old one, and the others stay |
| SmartNotifications.SmartNotifications.constructor | backend/core/smart_notifications.py:26-61 | the notifications and settings are the files' when they exist, none and the defaults otherwise |
| SmartNotifications.SmartNotifications.CreateNotification | backend/core/smart_notifications.py:90-110 | one notification is appended, due the given minutes after now, unread and unsent, and its id is returned |
| SmartNotifications.SmartNotifications.ShouldSendNotification | backend/core/smart_notifications.py:201-223 | disabled notifications and switched-off types are never sent; otherwise the notification is sent exactly outside the quiet hours |
| SmartNotifications.SmartNotifications.GetPendingNotifications | backend/core/smart_notifications.py:188-199 | exactly the unsent notifications that are due and may be sent now, in list order |
| SmartNotifications.SmartNotifications.PendingOf | backend/core/smart_notifications.py:193-197 | the loop keeps exactly the pending notifications |
| SmartNotifications.SmartNotifications.FirstWithId | backend/core/smart_notifications.py:227-230 | the search finds the first notification with the id |
| SmartNotifications.SmartNotifications.MarkAsSent | backend/core/smart_notifications.py:225-231 | the first notification with the id is marked sent |
| SmartNotifications.SmartNotifications.MarkAsRead | backend/core/smart_notifications.py:233-239 | the first notification with the id is marked read |
| SmartNotifications.SmartNotifications.GetUnreadNotifications | backend/core/smart_notifications.py:241-243 | exactly the notifications that are sent and not read |
| SmartNotifications.SmartNotifications.CleanupOldNotifications | backend/core/smart_notifications.py:245-254 | exactly the notifications created after the cutoff are kept, in order |
| SmartNotifications.SmartNotifications.GetNotificationStats | backend/core/smart_notifications.py:261-275 | the total is the number of notifications, sent and read count the notifications sent and read, and pending counts those pending now; each is at most the total, and sent and pending together are too |
| SmartNotifications.SmartNotifications.UpdateSettings | backend/core/smart_notifications.py:256-259 | the settings become the updated ones |
| ProactiveAssistant.PartOfDayBuckets | backend/core/proactive_assistant.py:74-81 | morning is 6 to 11, afternoon 12 to 16, evening 17 to 20, and every other hour is night |
| ProactiveAssistant.SuggestionsFor | backend/core/proactive_assistant.py:46-72 | each part of the day has four suggestions |
| ProactiveAssistant.TimeBasedSuggestion | backend/core/proactive_assistant.py:42-81 | the suggestion comes from the list for the hour's part of the day |
| ProactiveAssistant.RandomSuggestion | backend/core/proactive_assistant.py:134-143 | a random suggestion is a time-based one, a health tip or a productivity tip |
| ProactiveAssistant.Given | backend/core/proactive_assistant.py:162-171 | giving a suggestion records the time and appends it as the newest, keeping the last ten |
| ProactiveAssistant.SuggestionSpacing | backend/core/proactive_assistant.py:145-155 | once a suggestion is given, the next is due exactly when more than 1800 seconds have passed |
| ProactiveAssistant.GivenKeepsNewest | backend/core/proactive_assistant.py:164-171 | the log keeps its suggestions in the order given, dropping only the oldest |
| ProactiveAssistant.NumberedIdsDistinct | backend/core/proactive_assistant.py:110 | reminders numbered in order have distinct ids, each between 1 and their count |
| ProactiveAssistant.ProactiveAssistant.constructor | backend/core/proactive_assistant.py:11-29 | the logs are the files' when they can be read, empty otherwise |
| ProactiveAssistant.ProactiveAssistant.AddReminder | backend/core/proactive_assistant.py:107-119 | one uncompleted reminder is appended whose id is one more than the count before it, so the numbering stays in order; the confirmation names it |
| ProactiveAssistant.ProactiveAssistant.CheckReminders | backend/core/proactive_assistant.py:121-132 | exactly the uncompleted reminders that are due, in order |
| ProactiveAssistant.ProactiveAssistant.DueOf | backend/core/proactive_assistant.py:126-130 | the loop keeps exactly the due reminders |
| ProactiveAssistant.ProactiveAssistant.ShouldGiveSuggestion | backend/core/proactive_assistant.py:145-155 | a suggestion is due when none was ever given; otherwise it is due exactly when more than 1800 seconds have passed since the last one, and once due it stays due as time goes on |
| ProactiveAssistant.ProactiveAssistant.GiveSuggestion | backend/core/proactive_assistant.py:157-176 | nothing when a suggestion is not yet due; otherwise a random suggestion for the hour, recorded in the log |
| AnalyticsDashboard.RecordedCounters | backend/core/analytics_dashboard.py:44-93 | the day's, the week's and the month's conversation counters each exist afterwards and rise by exactly one |
| AnalyticsDashboard.RecordedHourAndWords | backend/core/analytics_dashboard.py:58-60 | the bucket of the current hour rises by one and no other changes; the user and reply word counts grow by the number of words of each text |
| AnalyticsDashboard.WithTopicCounts | backend/core/analytics_dashboard.py:62-63 | without a topic a counter stays as it was; with one only that topic's count rises, by one |
| AnalyticsDashboard.RecordedTopics | backend/core/analytics_dashboard.py:62-63 | the day's and the week's topic counters change only as the topic rule says |
| AnalyticsDashboard.RecordedActiveDays | backend/core/analytics_dashboard.py:77 | the week's active days gain today and nothing else |
| AnalyticsDashboard.RecordedOthersUnchanged | backend/core/analytics_dashboard.py:38-93 | every other day, week and month keeps its entry |
| AnalyticsDashboard.RecordedNonNegative | backend/core/analytics_dashboard.py:55-56 | recording keeps every day's conversation count non-negative |
| AnalyticsDashboard.TotalNonNegative | backend/core/analytics_dashboard.py:302-303 | with no negative day the total is not negative |
| AnalyticsDashboard.EngagementScore | backend/core/analytics_dashboard.py:310-314 | the score is at most 100, not negative for a non-negative total, and with 50 or more conversations at least the capped sum of the other two terms plus 50 |
| AnalyticsDashboard.LevelBands | backend/core/analytics_dashboard.py:316-323 | excellent from 80, good from 60, average from 40, low below; a higher score never gets a lower level |
| AnalyticsDashboard.EngagementOf | backend/core/analytics_dashboard.py:296-330 | the engagement's score is within bounds, its level is the band's, and it reports the active days and the number of distinct topics |
| AnalyticsDashboard.AddCount | backend/core/analytics_dashboard.py:234 | adding a count raises only that topic's total, by the count |
| AnalyticsDashboard.AddCountsGet | backend/core/analytics_dashboard.py:233-234 | adding a day's topic counts adds, topic by topic, what that day holds |
| AnalyticsDashboard.MergedTopicsCounts | backend/core/analytics_dashboard.py:225-234 | a topic's merged count is the sum of its daily counts, and the topics merged are exactly those of the engagement's diversity |
| AnalyticsDashboard.FirstDateSome | backend/core/analytics_dashboard.py:230-231 | there is a first date exactly when there is a day |
| AnalyticsDashboard.FirstDateLeast | backend/core/analytics_dashboard.py:230-231 | when no date key is empty, the first date is a date of the log that no other date precedes |
| AnalyticsDashboard.Today | backend/core/analytics_dashboard.py:141-159 | a missing day reads as zeros and empty tables; at most five top topics, each from the day's topics |
| AnalyticsDashboard.TodayTopTopics | backend/core/analytics_dashboard.py:155-156 | today's top topics come in descending order of count, and none left out has more |
| AnalyticsDashboard.TodayAfterRecord | backend/core/analytics_dashboard.py:38-56 | after a conversation is recorded, today's statistics show one more conversation |
| AnalyticsDashboard.AnalyticsDashboard.constructor | backend/core/analytics_dashboard.py:13-31 | the statistics are the file's when it exists, empty otherwise |
| AnalyticsDashboard.AnalyticsDashboard.RecordConversation | backend/core/analytics_dashboard.py:38-95 | the statistics become the recorded ones |
| AnalyticsDashboard.AnalyticsDashboard.RecordDay | backend/core/analytics_dashboard.py:55-63 | the daily block updates the day as the record says |
| AnalyticsDashboard.AnalyticsDashboard.RecordWeek | backend/core/analytics_dashboard.py:75-80 | the weekly block updates the week as the record says |
| AnalyticsDashboard.AnalyticsDashboard.GetTodayStats | backend/core/analytics_dashboard.py:141-159 | the result is today's statistics, with the day's conversation count |
| AnalyticsDashboard.AnalyticsDashboard.CalculateEngagement | backend/core/analytics_dashboard.py:296-330 | the result is the engagement of the days, its score within bounds |
| AnalyticsDashboard.AnalyticsDashboard.UniqueTopics | backend/core/analytics_dashboard.py:305-307 | the loop gathers every topic of every day |
| AnalyticsDashboard.AnalyticsDashboard.GetOverallStats | backend/core/analytics_dashboard.py:219-247 | the total, the active days, the first date, the ten most counted topics and the engagement |
| AnalyticsDashboard.AnalyticsDashboard.OverallLoop | backend/core/analytics_dashboard.py:225-234 | the loop computes the total, the first date and the merged topic counts |
| AnalyticsDashboard.AnalyticsDashboard.MergeCounts | backend/core/analytics_dashboard.py:233-234 | the inner loop adds one day's topic counts |
| TimeResponses.PeriodBuckets | backend/core/time_responses.py:24-34 | morning is 5 to 11, afternoon 12 to 16, evening 17 to 20, and every other hour is night |
| TimeResponses.TablesCoverPeriods | backend/core/time_responses.py:10-22 | both tables have every period as a key, so neither lookup fails |
| TimeResponses.LookupOfKey | backend/core/time_responses.py:10-22 | every period's entry in either table holds three replies |
| TimeResponses.Reply | backend/core/time_responses.py:39 | the reply comes from the list for the hour's period |
| TimeResponses.TimeGreeting | backend/core/time_responses.py:36-39 | the greeting comes from the list for the current period |
| TimeResponses.TimeSuggestion | backend/core/time_responses.py:41-44 | the suggestion comes from the list for the current period |
| TimeResponses.MinuteOf | backend/core/time_responses.py:50 | the minute of the hour is between 0 and 59 |
| TimeResponses.ShouldSuggestBreak | backend/core/time_responses.py:46-50 | a break is due exactly in the first minute of an even hour: less than 60 seconds past a multiple of two hours |
| ContextAware.SeasonMonths | backend/core/context_aware.py:46-56 | December to February is winter, March to May spring, June to August summer, and any other month autumn |
| ContextAware.GetSeason | backend/core/context_aware.py:46-56 | one of the four season names: winter exactly for December to February, spring for March to May, summer for June to August |
| ContextAware.PersianDate | backend/core/context_aware.py:38-44 | the date splits at its two slashes into exactly the numerals of the year less 621, the month and the day, unpadded |
| ContextAware.PersianDateParts | backend/core/context_aware.py:38-44 | each of the three parts of the date reads back as its number |
| UrlDownloader.QA | backend/core/url_downloader.py:80-83 | a stored conversation holds the question under "q" and the answer under "a" |
| UrlDownloader.ItemOf | backend/core/url_downloader.py:77-92 | an object gives a conversation exactly when it has question/answer, q/a or input/output, and the result always has q and a |
| UrlDownloader.ItemsOf | backend/core/url_downloader.py:75-92 | a list gives at most one conversation per item, each with q and a |
| UrlDownloader.JsonConversations | backend/core/url_downloader.py:68-102 | every conversation read from JSON has q and a |
| UrlDownloader.ObjectFields | backend/core/url_downloader.py:94-102 | an object is read through its "conversations" field first, then its "data" field, and otherwise holds nothing |
| UrlDownloader.QuestionListRoundTrip | backend/core/url_downloader.py:75-83 | a list of question/answer objects reads back as exactly its pairs |
| UrlDownloader.ParseJson | backend/core/url_downloader.py:68-102 | the loop reads the decoded value's conversations |
| UrlDownloader.Lines | backend/core/url_downloader.py:108 | the stripped text splits into at least one line, none holding a newline |
| UrlDownloader.TxtItems | backend/core/url_downloader.py:124-141 | lines pair up as question and answer, a pair kept when both are non-empty once stripped; at most half as many conversations as lines |
| UrlDownloader.ParseTxt | backend/core/url_downloader.py:124-141 | the loop reads the text's conversations |
| UrlDownloader.CsvRow | backend/core/url_downloader.py:109 | a line is a row with no fields exactly when nothing comes before its first carriage return, where the reader ends the row |
| UrlDownloader.RowErrorCases | backend/core/url_downloader.py:109 | a line with no carriage return and at most 131072 characters reads without error; a line with a carriage return followed by any other character raises |
| UrlDownloader.FirstRowError | backend/core/url_downloader.py:115 | the data rows raise nothing exactly when no line raises, and an error is the error of one of the lines |
| UrlDownloader.CsvItems | backend/core/url_downloader.py:115-120 | rows of two or more fields give their first two fields, stripped; at most one conversation per row |
| UrlDownloader.CsvConversations | backend/core/url_downloader.py:104-122 | every conversation read from CSV has q and a |
| UrlDownloader.CsvRaisesIff | backend/core/url_downloader.py:104-122 | the reader raises exactly when the header line raises, or the header has fields and some later line raises; otherwise an empty header gives no conversations and any other header gives the data rows' conversations |
| UrlDownloader.ParseCsv | backend/core/url_downloader.py:104-122 | the loop reads the CSV text's conversations, stopping with the reader's error at the first line that raises |
| UrlDownloader.LinesOfJoin | backend/core/url_downloader.py:108 | lines with clean ends and no newline come back from the split unchanged |
| UrlDownloader.TxtRoundTrip | backend/core/url_downloader.py:124-141 | a text of clean question and answer lines reads back as its pairs |
| UrlDownloader.CsvRowOfPair | backend/core/url_downloader.py:109 | a line `q,a` whose fields hold no comma or carriage return and fit the field limit is the row of those two fields and reads without error |
| UrlDownloader.CsvRoundTrip | backend/core/url_downloader.py:104-122 | a CSV text with a clean header and clean `q,a` rows (no comma, newline or carriage return in a field, at most 131072 characters, no outer white space) reads back as its pairs without error |
| UrlDownloader.Dataset | backend/core/url_downloader.py:37-66 | whatever layout is chosen, every conversation has q and a |
| UrlDownloader.DatasetFailures | backend/core/url_downloader.py:37-66 | the dataset fails exactly for a `.json` URL whose text does not decode and for a `.csv` URL whose text the CSV reader refuses, with the parse prefix before the parser's message; a URL without an extension whose text neither decodes nor reads as CSV is read as plain text |
| UrlDownloader.ParseDataset | backend/core/url_downloader.py:37-66 | the parser calls give the dataset the rule gives, failures and the plain-text fallback included |
| UrlDownloader.Taught | backend/core/url_downloader.py:152-156 | one pair is taught per teachable item |
| UrlDownloader.TaughtBy | backend/core/url_downloader.py:154-155 | an item is taught exactly when it is teachable |
| UrlDownloader.AllStringsTaught | backend/core/url_downloader.py:152-156 | when every conversation holds text, every one of them is taught |
| UrlDownloader.TxtItemsTeachable | backend/core/url_downloader.py:124-141 | every conversation of a text dataset is teachable |
| UrlDownloader.CsvItemsTeachable | backend/core/url_downloader.py:115-120 | every conversation of a CSV dataset is teachable |
| UrlDownloader.FileName | backend/core/url_downloader.py:165 | the file name is the URL's last path piece, or "dataset" when that is empty |
| UrlDownloader.SavedFile | backend/core/url_downloader.py:165-166 | the conversations are written to the data directory under that name with ".json" |
| UrlDownloader.SaveToFox | backend/core/url_downloader.py:143-174 | the loop teaches each teachable item in order and counts exactly those |
| UrlDownloader.Processing | backend/core/url_downloader.py:176-199 | a failed download reports its message; a success reports the URL, a positive count and no more saved than downloaded |
| UrlDownloader.TextDownloadsAllSaved | backend/core/url_downloader.py:124-156 | a text download is taught completely |
| UrlDownloader.CsvDownloadsAllSaved | backend/core/url_downloader.py:104-156 | a CSV download is taught completely |
| UrlDownloader.JsonDownloadOfPairs | backend/core/url_downloader.py:176-196 | a JSON list of question/answer objects downloads and saves exactly its pairs |
| UrlDownloader.JsonDataset | backend/core/url_downloader.py:45-46 | a `.json` URL whose text decodes reads the decoded value's conversations |
| UrlDownloader.PairItemsTaught | backend/core/url_downloader.py:152-156 | every conversation built from string pairs is taught |
| UrlDownloader.UrlDatasetDownloader.constructor | backend/core/url_downloader.py:13-18 | nothing has been taught |
| UrlDownloader.UrlDatasetDownloader.DownloadAndProcess | backend/core/url_downloader.py:176-199 | the result is the processing's; a failure teaches nothing; a success teaches the dataset's teachable items in order |
| MultiAiSystem.PersianCount | backend/core/multi_ai_system.py:76 | the Persian characters of an answer are at most its length |
| MultiAiSystem.Score | backend/core/multi_ai_system.py:74-77 | an answer scores between its length and three times its length |
| MultiAiSystem.ScoresAt | backend/core/multi_ai_system.py:72-77 | each answer competes with its score when it qualifies and with 0 otherwise |
| MultiAiSystem.BestResponse | backend/core/multi_ai_system.py:56-83 | an answer only while enabled with enough answers; it is a qualifying answer, signed with its provider, that no qualifying answer outscores and no earlier one equals; nothing is returned while enabled only when no answer qualifies |
| MultiAiSystem.QualifyingScoresPositive | backend/core/multi_ai_system.py:72-79 | a qualifying answer scores more than ten, so it beats the initial best score of 0 |
| MultiAiSystem.QualifyingCompete | backend/core/multi_ai_system.py:72-79 | the competing score is the real score, and positive, exactly for qualifying answers, and 0 for the others |
| MultiAiSystem.AnswerPickedIff | backend/core/multi_ai_system.py:58-83 | while enabled, some answer is returned exactly when one qualifies |
| MultiAiSystem.PickedAfterIsArgMax | backend/core/multi_ai_system.py:68-81 | after any number of answers the loop holds the first best of them, or nothing when the best score is 0 |
| MultiAiSystem.MultiAiSystem.constructor | backend/core/multi_ai_system.py:10-24 | the flag is the status file's `enabled` value, off when there is none |
| MultiAiSystem.MultiAiSystem.Enable | backend/core/multi_ai_system.py:32-37 | the feature is on, the flag is saved, and the message gives the number of providers |
| MultiAiSystem.MultiAiSystem.Disable | backend/core/multi_ai_system.py:39-43 | the feature is off, the flag is saved, and the disabled message is returned |
| MultiAiSystem.MultiAiSystem.GetBestResponse | backend/core/multi_ai_system.py:56-83 | the result is the best response for the flag and the answers |
| MultiAiSystem.MultiAiSystem.Rate | backend/core/multi_ai_system.py:72-77 | an answer's score in the loop is its competing score |
| MultiAiSystem.MultiAiSystem.PickBest | backend/core/multi_ai_system.py:68-83 | the loop keeps the first answer with the highest competing score, signed, or nothing when every score is 0 |
| MultiModelLearning.ModelsOrDefault | backend/core/multi_model_learning.py:16-17 | without named models the three defaults are used, so the list is never empty |
| MultiModelLearning.CollectedGets | backend/core/multi_model_learning.py:30-36 | after the loop every asked model holds its reply, or the error text, and every other key what it held before |
| MultiModelLearning.CollectedKeys | backend/core/multi_model_learning.py:30-36 | the loop only appends keys: earlier answers keep their places and no key repeats |
| MultiModelLearning.ModelResponsesKeys | backend/core/multi_model_learning.py:14-38 | the answers start with "ollama" holding the local reply or the error text; another model has an entry exactly when it is named (or a default) and registered, and that entry is its reply or the error text |
| MultiModelLearning.Analyze | backend/core/multi_model_learning.py:40-59 | no analysis for no answers, where `max` raises; otherwise the first answer with the highest length score, lengths of 1000 or more scoring 0, with the other parts empty and the answers carried along |
| MultiModelLearning.BestIsLongestReasonable | backend/core/multi_model_learning.py:53-54 | when some answer is non-empty and under 1000 characters, the best is under 1000 characters and at least as long as every such answer |
| MultiModelLearning.NothingReasonablePicksFirst | backend/core/multi_model_learning.py:53-54 | when no answer is both non-empty and under 1000 characters, the first answer is taken |
| MultiModelLearning.SavedRecordsCapped | backend/core/multi_model_learning.py:77-96 | the new record is kept last, the file never holds more than 100 records, nothing is dropped below that, and at the cap the oldest go first |
| MultiModelLearning.LearnedAnswerAsksNoModel | backend/core/multi_model_learning.py:98-106 | a non-empty learned answer is given, prefixed, whatever the models would say; only without one are the models asked |
| MultiModelLearning.MultiModelLearning.constructor | backend/core/multi_model_learning.py:10-12 | the object holds the learning system and the learning file |
| MultiModelLearning.MultiModelLearning.GetMultiModelResponse | backend/core/multi_model_learning.py:14-38 | the loop collects exactly the model answers the rule gives |
| MultiModelLearning.MultiModelLearning.SaveLearningData | backend/core/multi_model_learning.py:77-96 | the file holds the saved records: the old ones with the new one appended, the last 100 kept |
| MultiModelLearning.MultiModelLearning.GetSmartResponse | backend/core/multi_model_learning.py:98-106 | the result is the smart response for the learned data, and the learned lookup updates its use counts and file as it does alone |
| LlmEngine.HasSystemIff | backend/core/llm_engine.py:68 | the conversation has a system turn exactly when some turn's role is "system" |
| LlmEngine.Plain | backend/core/llm_engine.py:110-113 | one request turn per message, with the same role and content |
| LlmEngine.ChatRequestShape | backend/core/llm_engine.py:66-84 | without a system turn the request is the Persian prompt followed by the turns in order; with one it is the turns in order and nothing more; either way it holds a system turn |
| LlmEngine.StreamRequestAddsNothing | backend/core/llm_engine.py:107-113 | the streaming request equals the plain one exactly when the conversation has a system turn |
| LlmEngine.ChatReply | backend/core/llm_engine.py:98-105 | a failing client call is answered with the error prefix |
| LlmEngine.Engine.constructor | backend/core/llm_engine.py:18-21 | the engine holds the model name and the host |
| LlmEngine.Engine.Chat | backend/core/llm_engine.py:53-105 | the request is built as the rule says and the reply is the one for the client's outcome |
| LlmEngine.AppendTurns | backend/core/llm_engine.py:76-84 | the loop appends every turn as it is |
| AiConnector.ModelsForShape | backend/core/ai_connector.py:43-56 | two names per OpenAI or Anthropic client and one for Gemini, in that order; a name is offered exactly when its client is configured |
| AiConnector.LastSystemIsLast | backend/core/ai_connector.py:81-88 | the system text Claude gets is the last system turn's, or empty when there is none |
| AiConnector.ClaudeSnoc | backend/core/ai_connector.py:84-88 | one more turn: a system turn replaces the system text, any other is appended |
| AiConnector.ClaudeFormat | backend/core/ai_connector.py:80-88 | every message passed to Claude is one of the conversation's and none is a system turn |
| AiConnector.GeminiPromptAppend | backend/core/ai_connector.py:107-110 | the prompt of a conversation is the prompts of its parts, one after the other |
| AiConnector.GeminiSystemIsAssistant | backend/core/ai_connector.py:109 | a system turn is presented to Gemini as the assistant speaking |
| AiConnector.Answer | backend/core/ai_connector.py:70-72 | a configured client's answer is its text, or the provider's error message when it raises |
| AiConnector.CompareKeysSteps | backend/core/ai_connector.py:117-131 | the comparison has a GPT-3.5, a Claude and a Gemini entry, in that order, each exactly when its client is configured |
| AiConnector.Connector.constructor | backend/core/ai_connector.py:27-41 | a client exists exactly when its module is installed and its key is set |
| AiConnector.Connector.GetAvailableModels | backend/core/ai_connector.py:43-56 | the models offered are those of the configured clients |
| AiConnector.Connector.ChatWithOpenAi | backend/core/ai_connector.py:58-72 | without a client nothing is sent and the missing-key text is returned; otherwise the messages are sent as they are and the answer returned |
| AiConnector.Connector.ToClaude | backend/core/ai_connector.py:84-88 | the conversion loop gives the Claude format |
| AiConnector.Connector.ChatWithClaude | backend/core/ai_connector.py:74-98 | without a client nothing is sent; otherwise the Claude format is sent and the answer returned |
| AiConnector.Connector.ToGemini | backend/core/ai_connector.py:107-110 | the prompt loop gives the Gemini prompt |
| AiConnector.Connector.ChatWithGemini | backend/core/ai_connector.py:100-115 | without a model nothing is sent; otherwise the prompt is sent and the answer returned |
| AiConnector.Connector.CompareResponses | backend/core/ai_connector.py:117-131 | the dictionary built is the one `Compared` describes, with only the configured clients asked, each answering through its chat method |
| AiConnector.ComparedEntries | backend/core/ai_connector.py:117-131 | the comparison has an entry exactly for each configured client, in the order GPT-3.5, Claude, Gemini, and the entry of each holds that client's answer (and there is none for a client that is not configured) |
| ApiManagement.Config | backend/core/api_manager.py:10-18 | a configuration built without the optional fields is not free and allows 1000 tokens |
| ApiManagement.WithDefaultsValid | backend/core/api_manager.py:220-222 | adding the defaults keeps every name once |
| ApiManagement.WithDefaultsKeeps | backend/core/api_manager.py:221 | adding defaults never touches an existing configuration |
| ApiManagement.WithDefaultsOthers | backend/core/api_manager.py:220-222 | a name no default has is left as it was |
| ApiManagement.WithDefaultsAdds | backend/core/api_manager.py:220-222 | with distinct default names, an absent name gets its default |
| ApiManagement.FreeDefaultsAdded | backend/core/api_manager.py:194-222 | existing configurations are kept, each absent free default is added with its own settings, and no other name changes |
| ApiManagement.LastContent | backend/core/api_manager.py:136 | the Hugging Face prompt is the last message's content, or empty without messages |
| ApiManagement.FreeHubUsesChatFormat | backend/core/api_manager.py:109-174 | only the name "huggingface" selects the Hugging Face format, so the free default "huggingface_hub" is posted in the OpenAI format to its base URL's chat endpoint |
| ApiManagement.HttpReply | backend/core/api_manager.py:176-192 | a failed status is reported with its code and the first 200 characters of the body, a raised error with its message, and a success gives the answer |
| ApiManagement.ApiManager.constructor | backend/core/api_manager.py:21-38 | the configurations read from disk, then the free defaults for the names missing |
| ApiManagement.ApiManager.AddApi | backend/core/api_manager.py:47-61 | the configuration is inserted or overwritten under the name and the confirmation names it |
| ApiManagement.ApiManager.RemoveApi | backend/core/api_manager.py:63-69 | a known name is removed and reported; an unknown one changes nothing and is reported as not found |
| ApiManagement.ApiManager.AddFreeApis | backend/core/api_manager.py:194-222 | the configurations gain the free defaults that were missing |
| ApiManagement.ApiManager.ChatWithApi | backend/core/api_manager.py:100-192 | an unknown name sends nothing and is reported as not found; otherwise the request for that configuration is sent and its reply returned |
| ApiCommands.ParseApiCommand | backend/commands/api_commands.py:6-114 | the help exactly with fewer than two words; `list` and `free` exactly by their action word; an unknown action word exactly gives the invalid answer; `add` takes name, key, URL and model from words 2 to 5, and `remove`, `test` and `chat` the name from word 2 |
| ApiCommands.ActionAnyCase | backend/commands/api_commands.py:34 | the action word is read without regard to letter case |
| ApiCommands.AddNeedsSixWords | backend/commands/api_commands.py:36-46 | `add` shows its usage exactly when it has fewer than six words; a seventh reading "free" in any case marks the API free |
| ApiCommands.NameArgumentsNeeded | backend/commands/api_commands.py:60-77 | `remove` and `test` show their usage exactly without a name, and `chat` exactly without a name and a message |
| ApiCommands.ChatMessageRoundTrip | backend/commands/api_commands.py:75-83 | the chat message is the remaining words joined by single spaces, and splitting it gives them back |
| ApiCommands.Rows | backend/core/api_manager.py:71-84 | one listing row per configuration, in registry order, with its reachability |
| ApiCommands.RowsTextNamesEach | backend/commands/api_commands.py:53-58 | the listing names every registered API |
| ApiCommands.UsageChangesNothing | backend/commands/api_commands.py:8-114 | a usage error, the help, the free-API text and an unknown action leave the registry as it was |
| ApiCommands.FormatRows | backend/commands/api_commands.py:53-58 | the listing loop formats the rows |
| ApiCommands.ListRegistered | backend/commands/api_commands.py:48-58 | the `list` reply is the listing, and it is the empty-registry text exactly when nothing is registered |
| ApiCommands.HandleApiCommand | backend/commands/api_commands.py:6-114 | the registry changes as the parsed command says and the reply is that command's |
| ApiCommands.Perform | backend/commands/api_commands.py:36-114 | each branch changes the registry and replies as the parsed command says |
| ApiCommands.FixedReply | backend/commands/api_commands.py:8-114 | the usage, help and fixed texts do not depend on the registry |
| CliMain.HandleCommand | cli/main.py:78-202 | an input is handled as a command exactly when it starts with "/" |
| CliMain.CommandSplit | cli/main.py:80-83 | the command word is the lower-cased text between "/" and the first space, and the arguments everything after that space |
| CliMain.BareCommand | cli/main.py:81-83 | without a space the whole text after "/" is the command word and the arguments are empty |
| CliMain.DispatchDefaults | cli/main.py:97-173 | `/news` and `/weather` fall back to "Iran" and "Tehran"; the commands that need an argument only show their usage without one |
| CliMain.CommandAnyCase | cli/main.py:82 | the command word is matched in any letter case |
| CliMain.NewAndClear | cli/main.py:184-192 | `/new` and `/clear` both start a new session |
| CliMain.TurnStoreAppends | cli/main.py:581-596 | a chat turn stores the user's line and, after a search that found something, the search results as a system turn; nothing earlier changes |
| CliMain.AsWrittenTurnNeverAnswers | cli/main.py:603 | as written, a chat turn stores the user's line and then raises a NameError: nothing is sent to the model and no reply is stored |
| CliMain.CorrectedTurnPrompt | cli/main.py:598-609 | the corrected turn sends the personality prompt first, then the enhanced context unchanged, the memory digest second when memories are stored |
| CliMain.CorrectedTurnEndsWithLatest | cli/main.py:581-609 | the last turn the model sees is the one just stored: the search results when there are any, else the user's line |
| CliMain.SearchTurnEndsContext | cli/main.py:588-596 | after a search that found something, the session's context ends with the search turn |
| CliMain.LineTurnEndsContext | cli/main.py:582 | otherwise it ends with the user's line |
| CliMain.CorrectedTurnStoresReply | cli/main.py:609-617 | the styled reply is stored last, as the assistant turn |
| CliMain.Handled | cli/main.py:568-579 | the loop handles at most the lines typed |
| CliMain.DispatchQuit | cli/main.py:194-196 | the word "quit" is the quit command whatever the arguments |
| CliMain.QuitAnyCase | cli/main.py:576-578 | "/quit" in any letter case is the quit command and ends the loop |
| CliMain.QuitWithArgumentsContinues | cli/main.py:576-579 | "/quit" followed by arguments is handled as the quit command, but the loop goes on |
| CliMain.PersonalAI.constructor | cli/main.py:26-31 | a fresh conversation with an empty store, and an engine with the configured model and host |
| CliMain.PersonalAI.BuildWebContext | cli/main.py:592-594 | the loop lists every search result |
| CliMain.PersonalAI.StoreUserTurn | cli/main.py:581-596 | the store becomes the one with the turn stored |
| CliMain.PersonalAI.ChatTurn | cli/main.py:598-617 | a chat turn sends the corrected request and stores the reply as the corrected turn says |
| CliMain.PersonalAI.HandleLine | cli/main.py:572-617 | a line is skipped when blank, handled as a command when it starts with "/", and otherwise taken as a chat turn; that turn is the corrected turn of the "## Findings" row, since the turn as written ends the loop with a NameError |
| CliMain.PersonalAI.HandleNext | cli/main.py:568-620 | the loop body takes the store one line further |
| CliMain.PersonalAI.ChatLoop | cli/main.py:558-626 | without Ollama nothing is read and nothing changes; otherwise a session is started and each line is handled until one ends the loop, chat lines by the corrected turn of the "## Findings" row (as written, the first chat line ends the loop with a NameError) |

## Left out

Outside the model, with their results passed in as parameters:
- The network: the Ollama client, the OpenAI, Anthropic and Gemini SDK calls, the HTTP request bodies of `chat_with_api`, `test_api`, `download_from_url`, and the web search of the terminal. Each is a call the model cannot look into, so its reply is a parameter.
- Storage: the JSON encoding of every file, and the SQLAlchemy session, engine and table setup. The profile files are one shared `Profile.ProfileStore`, a map from path to profile: every `UserProfile` reads it when loading and writes its own path when saving, so two objects on one file see each other's saves. Every other file or table is a field of the one object that reads and writes it; a second object opened on the same file is not modelled.
- Library parsing: `json.loads` is outside the model, and the decoded value is a parameter. `csv.reader`'s quoting rules are not modelled: a line is split at every comma, and a carriage return inside quotes ends the row as an unquoted one does. NUL characters get no special treatment.
- `SmartMemory.WordRuns`: the `\b\w+\b` tokenizer counts as word characters the ASCII letters and digits, `_`, and the letters and digits of the Arabic block. Unicode letters of other scripts are not covered.
- Local input: the clock and `random.choice`. They are a clock reading and a pick index, since neither can be predicted.
- `Text.Lower`: lowers ASCII letters only. Persian text has no case; Unicode case folding is not modelled.
- `CliMain.Step`: a `/voice` line leaves the conversation unchanged. In the source (cli/main.py:139-141, 214-233) the voice session stores, for each recognised utterance, a "user" turn, the web results as a "system" turn when there are any, and the "assistant" reply. The utterances come from the microphone through `voice.py`, which is not part of this model, so these turns are not modelled.
- `CliMain.PersonalAI.HandleLine`: inherits that gap from `CliMain.Step`: a `/voice` line stores no turn.
- `CliMain.PersonalAI.ChatLoop`: inherits the same gap: the turns of a voice session started from the loop are not stored.
- `Text.Strip`: removes the ASCII white space Python removes (space, tab, line feed, vertical tab, form feed, carriage return and 0x1C to 0x1F) and no other character, so Unicode spaces such as U+00A0 and U+2003 count as text. The same goes for `Text.Words`.
- `SmartMemory.UserInsights`: the last activity is the clock reading itself, not its `strftime("%Y/%m/%d %H:%M")` text (smart_memory.py:185).
- `ProactiveAssistant.ProactiveAssistant.CheckReminders`: a reminder's time is taken as already parsed, so the `ValueError` that `datetime.fromisoformat` raises on malformed text is not modelled. The same goes for the last suggestion time read by `ShouldGiveSuggestion`.
- `MultiUser.ProfilePath`: joins the directory and the name as strings, whereas `os.path.join` drops the directory for a name that starts with "/". Two different names still never share a file under the model's path.

Left out because they use floating point:
- the personality sliders of `personality.py`, present only as the prompt text they produce;
- the average counts per day and response times in the analytics, and the weekly and monthly trend;
- the learning success rate, the notification read rate, the mood percentages and the progress percentage of the game status;
- `APIConfig.temperature` is kept as an exact real, and no arithmetic is done on it.

Left out because they cannot run as written:
- `learn_from_multi_model` and the combined-model reply of `get_smart_response` (backend/core/multi_model_learning.py:60-80). Line 64 calls `add_learned_response`, which the learning system does not define, and line 71 uses `datetime` without importing it.
- `MultiModelLearning.MultiModelLearning.GetSmartResponse`: models only the learned-answer short-circuit, because the other path runs into that broken call.
- `/listen` (cli/main.py:150-152) calls `listen_to_speech`, which is not defined; its stranded body at cli/main.py:406-419 is not modelled.
- The command helpers are defined twice. The second definitions, at cli/main.py:421-556, replace the first word for word. Both print to the console and are not modelled beyond what they are passed.

Left out because they are output or advice with no state behind them:
- The notification templates `create_follow_up`, `create_learning_reminder`, `create_daily_summary` and `create_achievement_notification`. Each picks a template text and calls `create_notification`, which is modelled.
- The status text of the game layer (`get_fox_status` beyond its personality tier) and its daily challenge.
- `introduction.get_next_message` on its own. The per-step message lists and the replies of `process_response` are modelled.
- `user_profiles.ask_for_relationship`, which only returns a question text.
- In the analytics: `record_learning_session`, the weekly and monthly reports, the learning statistics and `export_report`. Only the counters of `record_conversation`, the engagement score and the integer parts of today's and the overall statistics are modelled.
- From `context_aware.py`: the `top`, `/proc/meminfo` and `df` probes and the random weather. Only the season and the Persian date are modelled.
- From the Ollama engine: `is_available`, `list_models` and `pull_model`, which only talk to the Ollama server.
- Everything in `voice.py`, `internet.py`, `internet_old.py`, `ai_providers.py`, `fox_scraper.py`, `settings.py`, the web server, the browser and Electron front ends, and the console formatting of `cli/main.py`. These are transport, audio and presentation around the modelled state.

Modelling choices that narrow what is covered:
- Models: the column defaults `importance=1` (backend/database/models.py:39) and `tokens=0` (backend/database/models.py:30) are not represented, because every insert passes both (backend/core/memory.py:49-54, 129-134).
- `MultiAiSystem.BestResponse`: the provider manager that collects the answers is not part of this model. A provider whose answer is `None` is left out of the answers. The result is the same, since such an answer never qualifies and the guard on the number of answers then gives `None` either way.
- `MultiModelLearning.MultiModelLearning.GetMultiModelResponse`: the model names are taken to be distinct. The question reaches the model clients through their reply parameters.
- `ProactiveAssistant.PartOfDayBuckets`: the tips start the morning at hour 6, while `TimeResponses.PeriodBuckets` starts it at 5, as the two source files do.
- SQL ties: history and search rely on message timestamps that never decrease (a clock that does not go back). The recent conversations and the memories are sorted stably, with ties in stored order.
- Duplicate keys in a decoded JSON object are not modelled: an object is a list of distinct keys.

## Findings

| source | as written | input that shows it | evidently intended | confidence | as-written member | corrected member |
|---|---|---|---|---|---|---|
| cli/main.py:603 | the chat turn builds the personality message with `ChatMessage`, which cli/main.py:10-20 never imports. Python raises NameError after the user's line is stored. The line comes before the inner `try` at 608, and the outer handlers at 622-626 catch only interrupts, so the loop ends with the error | any line that is not blank and does not start with "/", for example "سلام" | the personality prompt goes in front of the enhanced context, the model is asked, and its reply is stored as the assistant turn | high (not executed) | CliMain.AsWrittenTurnNeverAnswers | CliMain.CorrectedTurnPrompt |
