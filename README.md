# GUPPSHUPP- dashboard, modelled in Dafny

GUPPSHUPP- is a browser dashboard over a hosted language model (Gemini). It has three panels:

- A chat column holds a conversation. The conversation is seeded with a 30-turn sample, can be replaced by transcribing a screenshot, and can be continued by chatting with the model.
- A memory panel asks the model to extract a profile of the user from the conversation. The profile has three buckets: preferences, emotional patterns and facts.
- A personality engine asks the model to answer the last message twice: once plainly and once in the voice of a selected persona, using the extracted profile.

This project models the part of the dashboard that decides what happens, in these files:

- `types.dfy` holds the records of `src/types.ts`.
- `constants.dfy` holds the sample conversation and the persona descriptions of `src/constants.ts`.
- `text.dfy` holds the string operations the source borrows from JavaScript: decimal printing, `join`, ASCII `toUpperCase` and `trim`. It also gives reference definitions (decimal parsing, `split`) used as their inverses.
- `gemini_service.dfy` holds the model service of `src/services/geminiService.ts`:
  - the API-key check;
  - the four flows (transcribe a screenshot, continue the chat, extract memories, generate a persona response);
  - the transformations around each call: the id fill-in, the history recast, the conversation log, the memory context and the fallback reply.
- `memory_panel.dfy` and `personality_engine.dfy` hold the enablement, label, styling and view-selection rules of those two panels.
- `chat_column.dfy` covers the chat column's disabled states, its send guard, its Enter-key rule and its file choice only. Its text box is a small class.
- `app.dfy` holds the controller of `src/App.tsx`:
  - a class `App` with the source's eight state fields;
  - one method pair per handler: `Begin…` runs before the model call and `Finish…` after it;
  - `Handle…` methods that run each pair around the service flow.

  Each method is proved against a pure step function on a snapshot of the state. The properties are lemmas about those functions.

The hosted model is never called. A flow receives what the call answered as an input:

- `Failure(e)` when the call threw;
- `Success(None)` when the answer had no text;
- `Success(Some(text))` when it had text.

A JSON flow also receives a decoder, which stands for `JSON.parse` plus the `as` cast. Each flow returns the request it handed to the model, if it got that far, so the contracts can say when nothing was sent.

Other things that come from outside the model are parameters: the API key from the environment, the base64 text the file reader produced, and the clock readings used as ids and timestamps of new chat turns.

## Model

| member | source | states |
|---|---|---|
| Types.PersonaNameInjective | src/types.ts:14-22 | distinct personas have distinct string values, so the persona-keyed table and button keys are well defined |
| Text.NatToString | src/services/geminiService.ts:75 | the decimal text of an index (`${idx}`): at least one character, only digits, one digit exactly below ten, and no leading zero; ParseNatToString reads it back as the index |
| Text.ParseNatToString | src/services/geminiService.ts:75 | the decimal text of an index reads back as that index |
| Text.NatToStringInjective | src/services/geminiService.ts:75 | two indices print the same exactly when they are equal |
| Text.Join | src/services/geminiService.ts:110 | JavaScript's `join`, used for the log here and for the buckets at lines 186-188; its properties are carried by JoinLength, JoinAppend, SplitJoin and SplitJoinPadded |
| Text.JoinLength | src/services/geminiService.ts:110 | a join is as long as its parts plus one separator between each neighbouring pair |
| Text.JoinAppend | src/services/geminiService.ts:110 | joining one more part adds a separator and that part at the end |
| Text.SplitJoin | src/services/geminiService.ts:110 | splitting a join at its one-character separator gives back the parts when none contains the separator |
| Text.SplitJoinPadded | src/services/geminiService.ts:186-188 | a join at a separator made of one character and padding splits at that character into the first part and the other parts, each with the padding in front |
| Text.Upper | src/services/geminiService.ts:110 | `toUpperCase` keeps the length and upper-cases each character on its own (ASCII letters only, see "Left out"); LogLineLabels gives its value on the two role names |
| Text.Trim | src/components/ChatColumn.tsx:36 | `trim` returns a slice of its input with only white space cut off before and after it, and the slice neither starts nor ends with white space |
| Text.TrimEmptyIffBlank | src/components/ChatColumn.tsx:36 | `trim` leaves nothing exactly when every character is ECMAScript white space or a line terminator |
| Constants.SampleConversation | src/constants.ts:4-35 | the sample has exactly 30 turns and the last is the user's |
| Constants.SampleIdsCount | src/constants.ts:5-34 | the sample ids are "1" to "30" in list order |
| Constants.SampleIdsDistinct | src/constants.ts:5-34 | the sample ids are non-empty and pairwise distinct |
| Constants.SampleClockSteps | src/constants.ts:5-34 | every sample timestamp reads as a clock time; the first is 10:00 AM, the last 10:31 AM, and each is later than the one before |
| Constants.SampleClockIncreasing | src/constants.ts:5-34 | the sample timestamps strictly increase along the whole list |
| Constants.ClockMinutes | src/constants.ts:5-34 | a readable clock time is less than a day in minutes |
| Constants.PersonaDescription | src/constants.ts:37-43 | every persona has a non-empty instruction text |
| Constants.AllPersonas | src/types.ts:14-20 | five personas in declaration order, none listed twice |
| Constants.AllPersonasComplete | src/types.ts:14-20 | every persona is listed |
| GeminiService.GetClient | src/services/geminiService.ts:8-14 | a client is built exactly when the key is set and non-empty; otherwise the error is "API Key not found" |
| GeminiService.JsonFlow | src/services/geminiService.ts:153-172 | a request is sent exactly when the key is present; no key fails with the key error; a thrown call is rethrown unchanged; an answer without text fails with "No response from Gemini"; otherwise the result is the decoded text |
| GeminiService.JsonFlowKeyFirst | src/services/geminiService.ts:18 | without a key nothing is sent, and the outcome does not depend on the answer or the decoder |
| GeminiService.JsonFlowRethrows | src/services/geminiService.ts:78-81 | with a key the flow fails exactly when the call threw, the text was empty or decoding failed, and the call's or decoder's error is passed on unchanged |
| GeminiService.ImportedId | src/services/geminiService.ts:75 | every fill-in id is "imported-" followed by text that reads back as its position |
| GeminiService.ImportedIdInjective | src/services/geminiService.ts:75 | distinct positions get distinct fill-in ids |
| GeminiService.FillIds | src/services/geminiService.ts:73-76 | same length and order; role, content and timestamp kept; a non-empty id kept; an empty id replaced by the fill-in id of its position |
| GeminiService.FillIdsNonEmpty | src/services/geminiService.ts:73-76 | after the fill-in no id is empty |
| GeminiService.FillIdsIdempotent | src/services/geminiService.ts:73-76 | filling in a second time changes nothing |
| GeminiService.FillIdsImportedDistinct | src/services/geminiService.ts:73-76 | fill-in ids given to two messages differ |
| GeminiService.ParseChatScreenshot | src/services/geminiService.ts:17-82 | the image is sent exactly when the key is present; success exactly when there is text and it decodes, with the ids filled in; no key, a thrown call, empty text and a decoding error each fail with their own error |
| GeminiService.ChatRoleOf | src/services/geminiService.ts:89 | the recast role is `model` exactly for the assistant |
| GeminiService.RecastHistory | src/services/geminiService.ts:88-91 | one turn per message in order, with the recast role and the content as its text |
| GeminiService.RecastHistoryRecoverable | src/services/geminiService.ts:88-91 | each turn's role and text give back the message's role and content |
| GeminiService.RecastHistoryAppend | src/services/geminiService.ts:88-91 | recasting a concatenation is the concatenation of the recasts |
| GeminiService.Fallback | src/services/geminiService.ts:100 | the fallback reply is not empty |
| GeminiService.ReplyOrFallback | src/services/geminiService.ts:100 | the text of the answer when it has any, otherwise "I'm sorry, I couldn't process that."; never empty |
| GeminiService.ContinueConversation | src/services/geminiService.ts:85-105 | the recast history and the new message are sent exactly when the key is present; a thrown call is rethrown; otherwise the reply or the fallback, which is never empty |
| GeminiService.LogLine | src/services/geminiService.ts:110 | a log line ends with the message's content, behind a non-empty label that holds no newline |
| GeminiService.LogLineLabels | src/services/geminiService.ts:110 | a log line is "USER: " or "ASSISTANT: " followed by the content |
| GeminiService.LogLines | src/services/geminiService.ts:110 | one log line per message, in order |
| GeminiService.ConversationLog | src/services/geminiService.ts:110 | the log is empty exactly when there are no messages (its lines and their splitting back are stated by the lemmas below) |
| GeminiService.ConversationLogAppend | src/services/geminiService.ts:110 | logging one more message adds a newline and its line |
| GeminiService.ConversationLogSplit | src/services/geminiService.ts:110 | when no content holds a newline, splitting the log at newlines gives back one line per message |
| GeminiService.ExtractMemories | src/services/geminiService.ts:108-173 | the conversation log is sent exactly when the key is present; no key, a thrown call and empty text fail with their own errors; otherwise the result is what decoding gives |
| GeminiService.MemoriesContext | src/services/geminiService.ts:185-189 | around the three ", "-joined buckets stand exactly 73 characters of fixed text (labels, indentation, line breaks); how the context reads back line by line is MemoriesContextLines |
| GeminiService.MemoriesContextLines | src/services/geminiService.ts:185-189 | `MemoriesContext`, split at newlines when no entry holds one, is an empty line, the three labelled bucket lines (preferences, emotional patterns, facts, each bucket joined by ", ") and the closing indentation; BucketRoundTrip and BucketAppend then read each bucket back from its line |
| GeminiService.BucketRoundTrip | src/services/geminiService.ts:185-189 | a bucket's entries can be read back from its ", "-joined text when no entry holds a comma |
| GeminiService.BucketAppend | src/services/geminiService.ts:186-188 | adding an entry to a bucket appends ", " and the entry to its text |
| GeminiService.GeneratePersonaResponse | src/services/geminiService.ts:176-238 | the last message, the memory context, the persona and its description are sent exactly when the key is present; no key, a thrown call and empty text fail with their own errors; otherwise the result is what decoding gives |
| ChatColumn.IsSubmitKey | src/components/ChatColumn.tsx:42 | the submitting key is Enter without Shift; ChatColumn.ChatInput.HandleKeyDown and ChatColumn.EnterMatchesSendButton carry its effect |
| ChatColumn.SendRequest | src/components/ChatColumn.tsx:35-39 | a send happens exactly when the input is not all white space and no send is in flight, and it passes the untrimmed input |
| ChatColumn.ChatControls | src/components/ChatColumn.tsx:66-154 | the input is disabled exactly while sending or processing an image; send exactly when the input is blank or either is pending; upload exactly while processing an image |
| ChatColumn.EnabledSendButtonSends | src/components/ChatColumn.tsx:152-154 | a click on an enabled send button always sends the input |
| ChatColumn.GuardIgnoresImageProcessing | src/components/ChatColumn.tsx:36 | `handleSend`'s guard sends during image processing although the button is disabled then |
| ChatColumn.EnterMatchesSendButton | src/components/ChatColumn.tsx:41-46 | while the box takes keys, Enter sends exactly when the send button is enabled |
| ChatColumn.ChosenFile | src/components/ChatColumn.tsx:28-33 | a file is passed on exactly when one was chosen, and it is the first |
| ChatColumn.ChatInput.constructor | src/components/ChatColumn.tsx:22 | the box starts empty |
| ChatColumn.ChatInput.Edit | src/components/ChatColumn.tsx:146 | typing replaces the input |
| ChatColumn.ChatInput.HandleSend | src/components/ChatColumn.tsx:35-39 | hands on what `SendRequest` allows and clears the box only then |
| ChatColumn.ChatInput.HandleKeyDown | src/components/ChatColumn.tsx:41-46 | Enter without Shift suppresses the default and runs `HandleSend`; any other key changes nothing |
| MemoryPanel.ExtractDisabled | src/components/MemoryPanel.tsx:46 | the button is enabled exactly when its label reads "Analyze Memories" |
| MemoryPanel.ExtractLabel | src/components/MemoryPanel.tsx:55 | "Analyzing..." exactly while loading; otherwise "Extraction Complete" exactly when memories exist, else "Analyze Memories" |
| MemoryPanel.ExtractStyleOf | src/components/MemoryPanel.tsx:47-53 | the complete look exactly when memories exist; the waiting look exactly when loading without memories |
| MemoryPanel.ExtractEnabledIffReady | src/components/MemoryPanel.tsx:44-53 | the button is enabled exactly when it has the ready look |
| MemoryPanel.ExtractLabelStyleDisagree | src/components/MemoryPanel.tsx:47-55 | label and look disagree exactly when loading with memories present |
| MemoryPanel.CardBodyOf | src/components/MemoryPanel.tsx:18-27 | the placeholder exactly when the list is empty |
| MemoryPanel.CardShowsItems | src/components/MemoryPanel.tsx:18-27 | a card shows its items in order, or only "No data extracted yet..." when there are none |
| MemoryPanel.MemoryCards | src/components/MemoryPanel.tsx:79-98 | three cards: preferences, emotional patterns, facts, in that order |
| MemoryPanel.PanelViewOf | src/components/MemoryPanel.tsx:60-100 | the empty prompt exactly without memories and not loading; the loading indicator exactly while loading; the cards exactly when memories exist |
| MemoryPanel.PanelShowsSomething | src/components/MemoryPanel.tsx:61-100 | something is always shown, and the empty prompt never next to anything else |
| MemoryPanel.PanelCardsShowBuckets | src/components/MemoryPanel.tsx:79-98 | with memories the cards list the three buckets' entries in order |
| PersonalityEngine.GenerateDisabled | src/components/PersonalityEngine.tsx:66 | the button is enabled exactly when its label reads "Generate Response" |
| PersonalityEngine.GenerateLabel | src/components/PersonalityEngine.tsx:75-85 | "Processing..." exactly while generating; otherwise "Extract Memories First" exactly without memories, else "Generate Response" |
| PersonalityEngine.GenerateStyleOf | src/components/PersonalityEngine.tsx:67-73 | the unavailable look exactly without memories; the busy look exactly when generating with memories |
| PersonalityEngine.GenerateEnabledIffReady | src/components/PersonalityEngine.tsx:64-73 | the button is enabled exactly when it has the ready look |
| PersonalityEngine.GenerateLabelStyleDisagree | src/components/PersonalityEngine.tsx:67-85 | label and look disagree exactly when generating without memories |
| PersonalityEngine.PersonaButtons | src/components/PersonalityEngine.tsx:42-54 | one button per persona in declaration order, showing its name, highlighted exactly when selected |
| PersonalityEngine.ExactlyOneHighlighted | src/components/PersonalityEngine.tsx:46-50 | exactly one button is highlighted, the selected persona's |
| PersonalityEngine.EveryPersonaSelectable | src/components/PersonalityEngine.tsx:42-45 | every persona has a button, and after clicking it that button is highlighted |
| PersonalityEngine.Instruction | src/components/PersonalityEngine.tsx:60 | the shown instruction is never empty |
| PersonalityEngine.ResponseViewOf | src/components/PersonalityEngine.tsx:91-137 | the response view exactly when a response exists; it shows the response's texts under "<selected persona> Output" |
| PersonalityEngine.HeaderFollowsSelection | src/components/PersonalityEngine.tsx:128 | changing the selection keeps the shown texts; the header changes exactly when the persona does |
| Dashboard.InitialState | src/App.tsx:17-26 | starts idle with the 30 sample turns (distinct ids, last from the user), no memories or response and the Calm Mentor persona; extraction is offered and generation waits for memories |
| Dashboard.ExtractStarted | src/App.tsx:30 | only the extraction flag rises |
| Dashboard.ExtractFinished | src/App.tsx:33-38 | a decoded profile replaces the memories, a failure keeps them, the flag is cleared, nothing else changes |
| Dashboard.ExtractHandled | src/App.tsx:29-40 | sends the current log once the key is found; decoded memories replace any old ones; any failure keeps them; only memories and the cleared flag change |
| Dashboard.LastContent | src/App.tsx:46-48 | the last message's content, or a failure exactly when the list is empty |
| Dashboard.GenerateStarted | src/App.tsx:44 | only the generation flag rises |
| Dashboard.GenerateFinished | src/App.tsx:52-57 | a decoded response replaces the old one, a failure keeps it, the flag is cleared, nothing else changes |
| Dashboard.GenerateRun | src/App.tsx:45-51 | an empty list fails with the missing-message error before anything is sent; otherwise the persona flow on the last message's content, the memories and the persona |
| Dashboard.GenerateHandled | src/App.tsx:42-59 | without memories nothing is sent and nothing changes; with them it sends the last content, memory context and persona; an empty list fails before sending; a decoded response replaces the old one; any failure keeps it; only the response and the cleared flag change |
| Dashboard.SendStarted | src/App.tsx:62-74 | the flag rises and the user's turn is appended; nothing else changes |
| Dashboard.SendFinished | src/App.tsx:87-92 | a reply is appended to the list as it is then, a failure appends nothing, the flag is cleared, nothing else changes |
| Dashboard.SendHandled | src/App.tsx:61-94 | the history sent is the list before the user's turn; success appends the user's turn and a non-empty assistant reply; failure keeps the user's turn; only messages and the cleared flag change |
| Dashboard.UploadStarted | src/App.tsx:111-113 | the flag rises and the response and memories are cleared; nothing else changes |
| Dashboard.UploadFinished | src/App.tsx:117-122 | a transcription replaces the messages, a failure keeps them, the flag is cleared, nothing else changes |
| Dashboard.UploadRun | src/App.tsx:114-116 | an unreadable file fails with the reader's error before anything is sent; otherwise the screenshot flow on the file's base64 text |
| Dashboard.UploadHandled | src/App.tsx:110-124 | response and memories are cleared whatever happens; messages are replaced by the transcription (every id non-empty) only on success; an unreadable file sends nothing |
| Dashboard.HandlersKeepIdle | src/App.tsx:29-124 | every handler leaves an idle dashboard idle |
| Dashboard.PendingDisablesTrigger | src/App.tsx:137-180 | while a handler waits, the control that starts it is disabled |
| Dashboard.UploadLeavesExtractEnabled | src/App.tsx:110-113 | while a transcription is pending the upload is disabled but the extract button is enabled again, since the upload cleared the memories |
| Dashboard.App.constructor | src/App.tsx:17-26 | the initial state |
| Dashboard.App.SelectPersona | src/App.tsx:175 | only the persona changes |
| Dashboard.App.BeginExtract | src/App.tsx:30 | raises the flag: the state becomes `ExtractStarted` of the old one |
| Dashboard.App.FinishExtract | src/App.tsx:33-38 | stores a decoded profile and clears the flag: the state becomes `ExtractFinished` of the old one |
| Dashboard.App.HandleExtractMemories | src/App.tsx:29-40 | sets the flag, runs the extraction flow on the current messages, stores a result, clears the flag: the step `ExtractHandled` describes |
| Dashboard.App.BeginGenerate | src/App.tsx:44 | raises the flag: the state becomes `GenerateStarted` of the old one |
| Dashboard.App.FinishGenerate | src/App.tsx:52-57 | stores a decoded response and clears the flag: the state becomes `GenerateFinished` of the old one |
| Dashboard.App.HandleGenerateResponse | src/App.tsx:42-59 | returns at once without memories; otherwise flag, last-message read, persona flow, store, clear: the step `GenerateHandled` describes |
| Dashboard.App.BeginSend | src/App.tsx:62-74 | raises the flag and appends the user's turn: the state becomes `SendStarted` of the old one |
| Dashboard.App.FinishSend | src/App.tsx:87-92 | appends a reply and clears the flag: the state becomes `SendFinished` of the old one |
| Dashboard.App.HandleSendMessage | src/App.tsx:61-94 | flag and user turn, chat flow on the earlier history, reply appended on success, clear: the step `SendHandled` describes |
| Dashboard.App.BeginUpload | src/App.tsx:111-113 | raises the flag and clears response and memories: the state becomes `UploadStarted` of the old one |
| Dashboard.App.FinishUpload | src/App.tsx:117-122 | stores a transcription and clears the flag: the state becomes `UploadFinished` of the old one |
| Dashboard.App.HandleImageUpload | src/App.tsx:110-124 | flag and clearing, file read, transcription, replace on success, clear: the step `UploadHandled` describes |

## Left out

- The network calls (`generateContent`, `chats.create`, `sendMessage`) are left out. They are an SDK over the network, so each call's outcome is an input.
- `JSON.parse` and the response schemas are left out. They are foreign code, so the decoded value is an input.
- The prompt wording, the model name and `temperature: 0.8` are left out. They are free text and a floating-point tuning knob. A request records only the values the source puts into the prompt.
- `fileToBase64` and `FileReader` are left out. They are browser I/O, so the base64 text, or the read error, is an input.
- `Date.now()` and `toLocaleTimeString` are left out. They read the clock, so the ids and timestamps of new turns are parameters.
- Overlapping asynchronous handlers are left out. Handlers run one after another. The `Begin…`/`Finish…` split shows the state each handler is waiting in, and `Dashboard.PendingDisablesTrigger` shows that the interface disables a handler's own trigger while it waits. The gating does not serialise handlers across panels: `Dashboard.UploadLeavesExtractEnabled` shows that extraction can start while a transcription is pending, and it would then store a profile of the conversation the transcription replaces. That interleaving is not modelled.
- Rendering is left out: layout, styling classes, scrolling, `alert`, `console.error`, the landing page and the switch between landing page and dashboard. These are presentation. Only the choices the memory panel and the personality engine make (which controls are disabled, which label, which view), and the chat column's disabled states, are modelled.
- The chat column's display choices are left out. They are presentation:
  - the upload button's label and look (`Scanning...` or `Upload Chat Img`);
  - the view shown for an empty conversation;
  - the overlay shown while a screenshot is processed;
  - the typing indicator shown while a reply is awaited.
- The unused `ProcessingState` type is left out.
- GeminiService.RecastHistory: a role is either user or assistant, as the `Message` type says. A decoded transcription whose role is some other string, which the `as` cast would let through, cannot be expressed.
- GeminiService.FillIds: a message the decoder produced without an id is modelled with the empty id. Both are falsy in the source and both get the fill-in id.
- Text.Upper: only ASCII letters are upper-cased. That is enough for the only strings it is applied to, the role names.
- Constants.ClockMinutes: it reads `H:MM` or `HH:MM` followed by a space and `AM` or `PM`. It states the order of the sample timestamps only.
- MemoryPanel.PanelCardsShowBuckets: it covers non-empty buckets. An empty bucket's placeholder is stated by MemoryPanel.CardShowsItems.
