# Social_Simulation backend — a verified Dafny model

This project models the core of the Social_Simulation backend, a community
simulation with a chat front. The model covers:

- three chat handlers that decide which residents answer a player's message.
  Each one classifies the message, scores and selects participants, works out
  reply delays and composes or validates replies:
  - the smart handler;
  - the enhanced local handler;
  - the realistic handler.
- the simple keyword chat handler;
- the LLM response generator's rate limiter, its guard branches and its
  conversation context;
- the player-command parser;
- the resident (agent) with its statistics, memories, relationships and
  event reactions;
- the random event generator;
- the simulation engine that averages the community's statistics and applies
  events;
- the prompt-template registry;
- the LLM configuration loader and validator;
- the `.env` loader that runs at start-up.

There is one Dafny module per source file. Shared modules hold the Python
built-ins and the patterns the handlers share:

| module | contents |
|---|---|
| `Wrappers` | `Option`, `Result` |
| `Text` | `in`, `strip`, `split`, `lower`, slicing |
| `Builtins` | `dict.get`, clamps, `int()` truncation, dict assignment |
| `Sorting` | Python's stable sort with a key |
| `Classify` | keyword topic and sentiment classifiers |
| `Selection` | threshold, sort and cap selection |

How the model treats the source's inputs:

- **Random draws** (`random.randint`, `random.uniform`, `random.random`,
  `random.choice`) are parameters. `randint(lo, hi)` is `lo + roll % (hi - lo + 1)`.
- **Time** is an integer number of seconds, passed in as `now`.
- **Floats** are Dafny `real`s. Where the source multiplies by small decimal
  factors on integers, the model uses integer tenths.
- **The LLM client** is a foreign call; its outcome is a parameter.
- **Regular-expression search** is an abstract predicate parameter.
- **`json.loads`** is an opaque parse result.
- **Objects the source updates in place** are Dafny classes:
  - the handlers' profile and cache dictionaries;
  - the rate limiter;
  - the agent;
  - the event generator;
  - the simulation;
  - `os.environ`.

  Each method states its whole new state in terms of specification functions,
  and lemmas state the invariants those functions keep.

## Model

| member | source | states |
|---|---|---|
| Text.Contains | backend/modules/ai/chat_handler.py:59-61 | `sub in s` holds exactly when `sub` occurs at some position of `s` |
| Text.HitCount | backend/modules/ai/chat_handler.py:121-126 | the count is at most the list length; it is 0 exactly when no phrase occurs, and the full length means every phrase occurs |
| Text.StripSpec | backend/main.py:31 | `strip()` never lengthens, leaves no whitespace at either end, and empties exactly the all-whitespace strings |
| Text.StripBySpec | backend/main.py:35 | stripping quote runs keeps a slice of the text whose ends are not quotes and drops only quote characters |
| Text.Lower | backend/modules/llm/config.py:54 | lowering keeps the length, maps every character by the ASCII lowering and leaves no ASCII capital |
| Text.Words | backend/modules/ai/smart_chat_handler.py:508-530 | every word of `split()` is a non-empty run of non-space characters, and there are none exactly when the text is all whitespace |
| Text.Tail | backend/modules/llm/response_generator.py:414 | `xs[-n:]` is the newest `min(n, |xs|)` entries, a suffix of `xs` |
| Sorting.SortOrdered | backend/modules/ai/smart_chat_handler.py:145 | the stable sort yields a list ordered by rank, highest first |
| Sorting.SortStable | backend/modules/ai/smart_chat_handler.py:145 | sorting never reorders two elements of equal rank |
| Sorting.TopSpec | backend/modules/simulation/agent.py:168-174 | a sorted prefix keeps at most `n` elements of the input, in rank order, and no element left out outranks a kept one |
| Classify.TopicOf | backend/modules/ai/smart_chat_handler.py:102-114 | the topic names the category with most keyword hits, the first in table order on a tie, and the default when nothing occurs |
| Classify.CompareSentiment | backend/modules/ai/realistic_chat_system.py:179-191 | positive or negative exactly when that side has strictly more hits; neutral on a tie |
| Classify.QuestionFirstSentiment | backend/modules/ai/enhanced_local_chat.py:365-384 | a question marker gives "questioning" whatever the counts; otherwise the strict comparison of the counts decides |
| Selection.RandIntCovers | backend/modules/ai/smart_chat_handler.py:245-252 | every value of `[lo, hi]` is produced by some draw |
| Selection.SelectTop | backend/modules/ai/smart_chat_handler.py:137-148 | the filter loop and the sort give exactly the eligible candidates, stably sorted by descending score and cut to the cap |
| Selection.FilterEligible | backend/modules/ai/smart_chat_handler.py:140-142 | the filter loop keeps exactly the candidates scoring above the threshold, in input order |
| Selection.EligibleSpec | backend/modules/ai/smart_chat_handler.py:140-142 | the kept candidates are drawn from the input, all score above 0.3, and none scoring above it is dropped |
| Selection.SelectedFromInput | backend/modules/ai/smart_chat_handler.py:137-148 | every selected resident comes from the scored input |
| Selection.SelectedAboveThreshold | backend/modules/ai/smart_chat_handler.py:140-142 | every selected resident scores strictly above the threshold |
| Selection.SelectedDescending | backend/modules/ai/smart_chat_handler.py:145 | the selection is in descending score order |
| Selection.SelectedAreBest | backend/modules/ai/smart_chat_handler.py:144-148 | no eligible resident left out scores above a selected one |
| Selection.SelectionKeepsTies | backend/modules/ai/smart_chat_handler.py:145 | residents with equal scores keep their input order |
| SmartChat.AnalyzeTopic | backend/modules/ai/smart_chat_handler.py:102-114 | "social" when no category keyword occurs in the lowercased message; otherwise "social" or a category name (the most-hits rule is `Classify.TopicOf`) |
| SmartChat.OccupationInterest | backend/modules/ai/smart_chat_handler.py:216-230 | the occupation interest lies in [0.3, 0.9] |
| SmartChat.PersonalityBonus | backend/modules/ai/smart_chat_handler.py:232-243 | the personality bonus lies in [0, 0.3] |
| SmartChat.ContentInterest | backend/modules/ai/smart_chat_handler.py:182-196 | the content interest lies in [0, 0.5] and is 0 exactly when no word of the three groups occurs |
| SmartChat.SocialTendency | backend/modules/ai/smart_chat_handler.py:198-214 | the social tendency lies in [0.3, 0.5], and outgoing or cheerful personalities get 0.5 |
| SmartChat.InterestWeight | backend/modules/ai/smart_chat_handler.py:150-170 | the weighted interest lies strictly between 0.6 and 1.0 |
| SmartChat.Damped | backend/modules/ai/smart_chat_handler.py:170-180 | the damped weight lies in [0, 1] |
| SmartChat.ParticipationScore | backend/modules/ai/smart_chat_handler.py:150-180 | the score is in [0, 1] |
| SmartChat.ActivityPenalty | backend/modules/ai/smart_chat_handler.py:172-174 | a resident with more than four conversations never scores above the same resident fresh |
| SmartChat.PenaltyDamps | backend/modules/ai/smart_chat_handler.py:172-174 | the 0.8 penalty never raises a non-negative weight |
| SmartChat.MaxParticipants | backend/modules/ai/smart_chat_handler.py:245-252 | 4 when the message addresses everyone; otherwise 2 to 4 for a community or social topic and 1 to 3 for the rest |
| SmartChat.ResponseDelay | backend/modules/ai/smart_chat_handler.py:254-266 | the delay is clamped to [1, 30] |
| SmartChat.BaseDelay | backend/modules/ai/smart_chat_handler.py:256-260 | the personality base lies between 0.8 and 1.3 times the draw |
| SmartChat.DelayAtLeastBase | backend/modules/ai/smart_chat_handler.py:254-266 | with the draws and the score in range the delay is at least 2.4 seconds |
| SmartChat.ValidatorPhrasesWellFormed | backend/modules/ai/smart_chat_handler.py:428-506 | the validator's phrase lists hold no empty phrase |
| SmartChat.NothingInEmpty | backend/modules/ai/smart_chat_handler.py:428-506 | no phrase of a list occurs in the empty reply |
| SmartChat.ValidatorRules | backend/modules/ai/smart_chat_handler.py:438-485 | a judging phrase always rejects; a first-person phrase without judging accepts; a reply with no participating phrase is rejected |
| SmartChat.EmptyIsNotParticipatory | backend/modules/ai/smart_chat_handler.py:428-506 | the empty reply never passes the validator |
| SmartChat.Verdict | backend/modules/ai/smart_chat_handler.py:292-306 | an accepted attempt succeeded with a response, its reply is the stripped response, and that reply passes the validator |
| SmartChat.FirstReplyTakesFirst | backend/modules/ai/smart_chat_handler.py:271-313 | when attempt `j` is the first accepted one, its reply is the result |
| SmartChat.FirstReplyFallsBack | backend/modules/ai/smart_chat_handler.py:311-313 | when no attempt is accepted, the fallback is the result |
| SmartChat.FirstReplyIsAVerdict | backend/modules/ai/smart_chat_handler.py:271-313 | the result is the fallback or one attempt's accepted reply |
| SmartChat.GenerateReply | backend/modules/ai/smart_chat_handler.py:268-313 | the reply is the settled reply, after one to three calls; stopping before three means the last call was accepted |
| SmartChat.SettledReplyValid | backend/modules/ai/smart_chat_handler.py:271-313 | the settled reply is the fallback or a non-empty reply that passes the validator |
| SmartChat.FallbackListFor | backend/modules/ai/smart_chat_handler.py:315-408 | an asking list exactly when an asking word occurs; a recommending list exactly when no asking word and a recommending word occur; the default list exactly when no group occurs |
| SmartChat.HowIsItAsks | backend/modules/ai/smart_chat_handler.py:324 | a message holding "怎么样" is always answered from an asking list |
| SmartChat.Short | backend/modules/ai/smart_chat_handler.py:403 | the short templates are exactly the list's templates under 50 characters |
| SmartChat.SmartFallback | backend/modules/ai/smart_chat_handler.py:397-408 | the fallback is non-empty; an optimist's has no "。"; an introvert's is under 50 characters, a template or the introvert default; anyone else's is a template of the list |
| SmartChat.Replies | backend/modules/ai/smart_chat_handler.py:328-395 | every reply list has three replies |
| SmartChat.RepliesShort | backend/modules/ai/smart_chat_handler.py:328-395 | every reply of every list is non-empty and under 50 characters |
| SmartChat.ShortKeepsAll | backend/modules/ai/smart_chat_handler.py:403-404 | a list whose replies are all under 50 characters keeps all of them through the introvert's filter |
| SmartChat.FallbackReplySpec | backend/modules/ai/smart_chat_handler.py:315-408 | the fallback is non-empty and is the picked reply of the list the wording selects, with "。" turned into "！" for an optimist; an introvert also gets the picked reply, never the introvert default |
| SmartChat.NoTokensWhenBlank | backend/modules/ai/smart_chat_handler.py:516-518 | a reply has no words exactly when it holds only whitespace, "，" and "。" |
| SmartChat.AnySimilar | backend/modules/ai/smart_chat_handler.py:520-528 | some cached reply is similar exactly when one of them is |
| SmartChat.DuplicateSpec | backend/modules/ai/smart_chat_handler.py:508-530 | no cache means no duplicate; an exact cached match is one; otherwise duplicate exactly when a cached reply matches or is similar |
| SmartChat.SameWordsAreSimilar | backend/modules/ai/smart_chat_handler.py:520-528 | two replies with the same non-empty word set are similar |
| SmartChat.CachedKeys | backend/modules/ai/smart_chat_handler.py:532-540 | caching adds the resident's list if absent and leaves every other resident's list alone |
| SmartChat.CachedNewest | backend/modules/ai/smart_chat_handler.py:535-540 | the cached list ends with the new reply and holds at most three |
| SmartChat.CachedAppends | backend/modules/ai/smart_chat_handler.py:535-538 | a list shorter than three gets the reply appended; a first reply starts a list of its own |
| SmartChat.CachedBounded | backend/modules/ai/smart_chat_handler.py:538-540 | caching keeps every list at most three long |
| SmartChat.UpdatedStateSpec | backend/modules/ai/smart_chat_handler.py:542-555 | the time is stamped, the count grows by one, the topic is added only when absent within five, energy decays past two conversations, and nothing else changes |
| SmartChat.UpdateKeepsTopics | backend/modules/ai/smart_chat_handler.py:546-550 | the recent-topic list stays free of duplicates and at most five long |
| SmartChat.CommitSpec | backend/modules/ai/smart_chat_handler.py:84-98 | a proposal delivers exactly when its reply is non-empty and no duplicate, under its own resident; otherwise the state is unchanged; caches stay bounded |
| SmartChat.DeliverBounds | backend/modules/ai/smart_chat_handler.py:73-100 | a turn keeps the residents, delivers at most one non-empty reply per proposal and keeps caches bounded |
| SmartChat.DeliveredWereProposed | backend/modules/ai/smart_chat_handler.py:73-100 | every delivered reply is some proposal's reply, spoken by that proposal's resident |
| SmartChat.DeliverStep | backend/modules/ai/smart_chat_handler.py:73-100 | the loop from position `i` is one commit followed by the loop from `i + 1` |
| SmartChat.DeliverAdvance | backend/modules/ai/smart_chat_handler.py:73-100 | after a commit the replies grow by what it delivered and the loop carries on from `i + 1` |
| SmartChat.CommitKeepsSilentCache | backend/modules/ai/smart_chat_handler.py:84-98 | a proposal that delivers nothing under `n` leaves `n`'s cache as it was |
| SmartChat.SilentKeepCache | backend/modules/ai/smart_chat_handler.py:73-100 | a resident who delivers nothing in a turn keeps their reply cache |
| SmartChat.ScoreAll | backend/modules/ai/smart_chat_handler.py:137-142 | one score per profile, in profile order, each in [0, 1] |
| SmartChat.Proposals | backend/modules/ai/smart_chat_handler.py:73-82 | one proposal per chosen resident, with a delay between 1 and 30 seconds |
| SmartChat.ProposalAt | backend/modules/ai/smart_chat_handler.py:73-82 | the i-th proposal belongs to the i-th chosen resident and has a delay between 1 and 30 seconds |
| SmartChat.ProposalReplySpec | backend/modules/ai/smart_chat_handler.py:271-313 | every proposal's reply is non-empty: one that passes the validator, or the speaker's fallback for the message |
| SmartChat.SamePersonalitySameProposal | backend/modules/ai/smart_chat_handler.py:254-266 | a proposal depends on the profiles only through the speaker's personality |
| SmartChat.ChosenAreResidents | backend/modules/ai/smart_chat_handler.py:69-74 | everyone selected from the scored profiles has a profile |
| SmartChat.Handler.constructor | backend/modules/ai/smart_chat_handler.py:42-57 | the given profiles, in the given order, and an empty cache |
| SmartChat.Handler.CacheResponse | backend/modules/ai/smart_chat_handler.py:532-540 | the cache becomes the cached-reply function of the old cache |
| SmartChat.Handler.UpdateAgentState | backend/modules/ai/smart_chat_handler.py:542-555 | only the resident's profile changes, to the updated-state function of the old one |
| SmartChat.Handler.Propose | backend/modules/ai/smart_chat_handler.py:76-82 | returns the i-th proposal and changes nothing |
| SmartChat.Handler.CommitProposal | backend/modules/ai/smart_chat_handler.py:84-98 | delivers, updates state and cache as the commit function says, or changes nothing |
| SmartChat.Handler.ProcessUserMessage | backend/modules/ai/smart_chat_handler.py:59-100 | topic and selection as the specification functions say; the new profiles, caches and replies are the delivery of the proposals, each reply settled from the resident's attempts with that resident's fallback for the message |
| SmartChat.Handler.CommitChosen | backend/modules/ai/smart_chat_handler.py:73-100 | the loop leaves the profiles and caches that the delivery of the proposals gives, and returns its replies |
| EnhancedChat.AnalyzeTopic | backend/modules/ai/enhanced_local_chat.py:351-363 | the category with most hits in the lowercased message, the first on a tie, "social" when nothing matches |
| EnhancedChat.AnalyzeSentiment | backend/modules/ai/enhanced_local_chat.py:365-384 | questioning when any question marker occurs; otherwise the side with strictly more hits, neutral on a tie |
| EnhancedChat.ParticipationScore | backend/modules/ai/enhanced_local_chat.py:402-427 | the score is in [0, 1] |
| EnhancedChat.ActivityPenalty | backend/modules/ai/enhanced_local_chat.py:418-420 | a resident with more than five conversations never scores above the same resident fresh |
| EnhancedChat.ScoreAll | backend/modules/ai/enhanced_local_chat.py:386-395 | one score per profile, in profile order, each in [0, 1] |
| EnhancedChat.MaxParticipants | backend/modules/ai/enhanced_local_chat.py:429-436 | 6 when the message addresses everyone; otherwise 3 to 5 for a community or social topic and 2 to 4 for the rest |
| EnhancedChat.DelayRange | backend/modules/ai/enhanced_local_chat.py:68-220 | every pattern's range satisfies 2 <= low < high <= 20 |
| EnhancedChat.ResponseDelay | backend/modules/ai/enhanced_local_chat.py:438-450 | the delay is clamped to [1, 60] |
| EnhancedChat.DelayAtLeastRangeStart | backend/modules/ai/enhanced_local_chat.py:438-450 | with draws in range nobody answers before the start of their pattern's range |
| EnhancedChat.LastSpeakerOfLine | backend/modules/ai/enhanced_local_chat.py:498-500 | a line `name: reply` names `name` back when the name holds no ':' |
| EnhancedChat.LastSpeakerIsPrefix | backend/modules/ai/enhanced_local_chat.py:498-500 | the extracted speaker is a prefix of the line without ':' |
| EnhancedChat.OpeningFor | backend/modules/ai/enhanced_local_chat.py:452-472 | the greeting exactly when the speaker is first or the context is empty; the follow-up otherwise |
| EnhancedChat.PersonalityTouchSpec | backend/modules/ai/enhanced_local_chat.py:580-596 | the touched reply keeps the possibly re-punctuated reply as its prefix and adds at most two characters; below energy 0.8 and for other personalities the reply is unchanged |
| EnhancedChat.HighEnergyExclaims | backend/modules/ai/enhanced_local_chat.py:593-594 | above energy 0.8 no "。" is left |
| EnhancedChat.UpdatedStateSpec | backend/modules/ai/enhanced_local_chat.py:598-624 | the update stamps the time, counts one more conversation, decays energy once the count passes three and leaves the identity alone |
| EnhancedChat.UpdatedTopics | backend/modules/ai/enhanced_local_chat.py:604-608 | the topic is added only when absent and the list keeps at most five |
| EnhancedChat.UpdateKeepsTopics | backend/modules/ai/enhanced_local_chat.py:604-608 | the recent-topic list stays free of duplicates and at most five long |
| EnhancedChat.RememberedSpec | backend/modules/ai/enhanced_local_chat.py:612-624 | remembering adds exactly one entry at the end of the resident's list and touches no other list |
| EnhancedChat.StepSpec | backend/modules/ai/enhanced_local_chat.py:322-345 | a step delivers exactly when the composed reply is non-empty, adds one `name: reply` context line per reply, and otherwise changes nothing |
| EnhancedChat.Lines | backend/modules/ai/enhanced_local_chat.py:343 | one context line per reply, in order |
| EnhancedChat.LinesConcat | backend/modules/ai/enhanced_local_chat.py:343 | the lines of two runs of replies are the lines of each, in order |
| EnhancedChat.RunKeepsResidents | backend/modules/ai/enhanced_local_chat.py:318-349 | a turn keeps the set of residents |
| EnhancedChat.RunReplyCount | backend/modules/ai/enhanced_local_chat.py:318-349 | a turn delivers at most one reply per remaining participant |
| EnhancedChat.RunRepliesNonEmpty | backend/modules/ai/enhanced_local_chat.py:333-342 | no delivered reply is empty |
| EnhancedChat.RunContext | backend/modules/ai/enhanced_local_chat.py:318-349 | a turn adds exactly one `name: reply` line per delivered reply, in reply order |
| EnhancedChat.FollowUpAddressesLastSpeaker | backend/modules/ai/enhanced_local_chat.py:452-522 | a participant after position 0 whose last context line is `name: ...`, with no ':' in the name, opens with the follow-up addressed to `name` |
| EnhancedChat.RunAdvance | backend/modules/ai/enhanced_local_chat.py:318-349 | one step then the loop from `i + 1` is the loop from `i` |
| EnhancedChat.Handler.constructor | backend/modules/ai/enhanced_local_chat.py:257-293 | the given profiles and an empty memory |
| EnhancedChat.Handler.UpdateAgentState | backend/modules/ai/enhanced_local_chat.py:598-624 | only the resident's profile and memory change, to the update functions of the old ones |
| EnhancedChat.Handler.ProcessUserMessage | backend/modules/ai/enhanced_local_chat.py:309-349 | topic, selection and the delivered replies and context as the run function says |
| EnhancedChat.Handler.RunChosen | backend/modules/ai/enhanced_local_chat.py:318-349 | the loop's state and replies are the run function of the old state |
| EnhancedChat.Handler.StepOne | backend/modules/ai/enhanced_local_chat.py:322-345 | one pass is exactly the step function |
| RealisticChat.AnalyzeTopic | backend/modules/ai/realistic_chat_system.py:166-177 | "general" when no keyword occurs; otherwise a category one of whose keywords occurs |
| RealisticChat.AnalyzeSentiment | backend/modules/ai/realistic_chat_system.py:179-191 | positive or negative on strictly more hits, neutral on a tie, never questioning |
| RealisticChat.ChatTraits | backend/modules/ai/realistic_chat_system.py:75-106 | chattiness in [0.3, 0.9], speed and energy in [0.4, 0.9], and (0.5, 0.5, 0.5) for an unknown personality |
| RealisticChat.TopicEngagement | backend/modules/ai/realistic_chat_system.py:87-106 | every engagement lies in [0.5, 0.9], and an unknown occupation engages 0.5 throughout |
| RealisticChat.NewProfile | backend/modules/ai/realistic_chat_system.py:71-120 | a new profile has the table traits within their bounds, no talk yet and no recent topics |
| RealisticChat.ParticipationScore | backend/modules/ai/realistic_chat_system.py:215-252 | the score is in [0, 1] |
| RealisticChat.RecentSpeakerScoresLower | backend/modules/ai/realistic_chat_system.py:247-250 | someone who spoke in the last five minutes never scores above the same resident with no history |
| RealisticChat.PositiveMessageLifts | backend/modules/ai/realistic_chat_system.py:238-241 | an optimistic or sociable resident never scores lower on a positive message than on a neutral one |
| RealisticChat.ScoreAll | backend/modules/ai/realistic_chat_system.py:193-205 | one score per profile, in profile order, each in [0, 1] |
| RealisticChat.MaxParticipants | backend/modules/ai/realistic_chat_system.py:254-264 | 2 to 4 for a question, 2 to 3 for a community or social topic, 1 to 3 for a message over 50 characters, 1 to 2 otherwise |
| RealisticChat.MaxParticipantsCovers | backend/modules/ai/realistic_chat_system.py:254-264 | every cap from 2 to 4 is drawn for some roll when the message asks a question |
| RealisticChat.PersonalityModifier | backend/modules/ai/realistic_chat_system.py:278-287 | the personality factor lies in [0.7, 1.5] |
| RealisticChat.ResponseDelay | backend/modules/ai/realistic_chat_system.py:266-295 | the delay is clamped to [1, 60] |
| RealisticChat.DelayFollowsStretch | backend/modules/ai/realistic_chat_system.py:266-295 | the clamped delay follows the order of the stretches |
| RealisticChat.InterestSpeedsReply | backend/modules/ai/realistic_chat_system.py:275 | a more interested resident never answers later than a less interested one |
| RealisticChat.LaterSpeakersWait | backend/modules/ai/realistic_chat_system.py:272 | a later speaker never answers before an earlier one with the same draws |
| RealisticChat.ScheduledSpec | backend/modules/ai/realistic_chat_system.py:147-152 | the update counts one conversation, stamps the time and changes nothing but the topics |
| RealisticChat.ScheduledTopics | backend/modules/ai/realistic_chat_system.py:149-152 | the topic ends up in the list, a present one leaves it alone, the list stays within five without duplicates, the newest last |
| RealisticChat.ScheduleDefined | backend/modules/ai/realistic_chat_system.py:140-162 | the schedule exists exactly when every selected id has a profile, and it keeps the residents |
| RealisticChat.ScheduleShape | backend/modules/ai/realistic_chat_system.py:154-161 | one entry per participant at its own position; only position 0 is the first responder |
| RealisticChat.ScheduleCounts | backend/modules/ai/realistic_chat_system.py:140-152 | with distinct ids each scheduled resident has exactly one more conversation and every other resident is unchanged |
| RealisticChat.ScheduleLoop | backend/modules/ai/realistic_chat_system.py:140-162 | the loop yields exactly the schedule function's entries and profiles |
| RealisticChat.ChosenAreResidents | backend/modules/ai/realistic_chat_system.py:193-213 | everyone selected from the scored profiles has a profile |
| RealisticChat.RememberedKeepsOthers | backend/modules/ai/realistic_chat_system.py:445-461 | remembering touches only the resident's own list |
| RealisticChat.RememberedNewest | backend/modules/ai/realistic_chat_system.py:450-461 | the new entry is the newest, at most twenty remain, and none is dropped below twenty |
| RealisticChat.RenderNamesSpeaker | backend/modules/ai/realistic_chat_system.py:415-443 | every rendered template contains "我是" followed by the resident's name |
| RealisticChat.FallbackTemplates | backend/modules/ai/realistic_chat_system.py:415-443 | exactly three templates for every topic |
| RealisticChat.FallbackNamesSpeaker | backend/modules/ai/realistic_chat_system.py:415-443 | every fallback reply names the resident, whatever the topic and pick |
| RealisticChat.GeneratorAnswer | backend/modules/llm/response_generator.py:443-493 | the generator's answer never has a `content` key and always has `agent_response` |
| RealisticChat.AsWrittenDropsGeneratedReply | backend/modules/ai/realistic_chat_system.py:330-335 | as written, a successful generator answer is replaced by the default self-introduction |
| RealisticChat.AsWrittenCounterexample | backend/modules/ai/realistic_chat_system.py:330-335 | a generator reply "你好" reaches the resident as the default text |
| RealisticChat.ReplyKeepsGeneratedReply | backend/modules/ai/realistic_chat_system.py:330-335 | corrected, a successful generator reply reaches the resident unchanged |
| RealisticChat.ReplyAgreesOffSuccess | backend/modules/ai/realistic_chat_system.py:297-369 | off the success path the written and corrected versions agree, and the reply is the fallback |
| RealisticChat.Handler.constructor | backend/modules/ai/realistic_chat_system.py:64-69 | the given profiles and one empty memory per profile |
| RealisticChat.Handler.UpdateConversationMemory | backend/modules/ai/realistic_chat_system.py:445-461 | only the resident's memory changes, to the remembered function of the old one |
| RealisticChat.Handler.GenerateAgentResponse | backend/modules/ai/realistic_chat_system.py:297-369 | the answer is the corrected reply; memory records it unless the call raised |
| RealisticChat.Handler.ProcessUserMessage | backend/modules/ai/realistic_chat_system.py:122-164 | topic, sentiment, selection and the schedule as the specification functions say |
| RealisticChat.Handler.ScheduleChosen | backend/modules/ai/realistic_chat_system.py:140-162 | the profiles and entries become the schedule function of the old profiles |
| ResponseGenerator.RecentSpec | backend/modules/llm/response_generator.py:47 | the cleanup keeps exactly the times inside the window and adds none |
| ResponseGenerator.RecentUsageSpec | backend/modules/llm/response_generator.py:48 | the cleanup keeps exactly the usage entries inside the window |
| ResponseGenerator.RecentLater | backend/modules/llm/response_generator.py:47-48 | cleaning earlier then later is cleaning later |
| ResponseGenerator.TokenSumAppend | backend/modules/llm/response_generator.py:55 | the token sum after one more entry grows by its tokens |
| ResponseGenerator.Admit | backend/modules/llm/response_generator.py:50-59 | admitted exactly when under the request count and within the token budget; too many requests exactly when the count is reached |
| ResponseGenerator.AdmittedStaysWithinLimits | backend/modules/llm/response_generator.py:42-66 | an admitted request recorded within its estimate leaves the window within both limits |
| ResponseGenerator.RateLimiter.constructor | backend/modules/llm/response_generator.py:36-40 | the given limits and no history |
| ResponseGenerator.RateLimiter.CanMakeRequest | backend/modules/llm/response_generator.py:42-59 | drops the entries outside the window, then decides as the admission rule says; records nothing |
| ResponseGenerator.RateLimiter.RecordRequest | backend/modules/llm/response_generator.py:61-66 | always one more request time; a usage entry only for a positive count |
| ResponseGenerator.EstimatedTokens | backend/modules/llm/response_generator.py:151 | four times the estimate is at most the prompt length, which is below four times the estimate plus four |
| ResponseGenerator.UsageMap | backend/modules/llm/response_generator.py:193-197 | the usage dictionary has exactly the three count keys, all 0 without usage |
| ResponseGenerator.Answered | backend/modules/llm/response_generator.py:173-214 | success exactly for a completed call, carrying its content or "" when absent; a raised call fails |
| ResponseGenerator.Generator.GenerateResponse | backend/modules/llm/response_generator.py:120-214 | no client, a prompt error, a refused request and a failed call each fail; otherwise the answer is recorded and returned |
| ResponseGenerator.ContextShowsNewestHistory | backend/modules/llm/response_generator.py:410-414 | the context opens with the history header and the newest five history lines |
| ResponseGenerator.ContextEndsWithOwnLines | backend/modules/llm/response_generator.py:421-423 | the context closes with the own-lines header and the newest three own lines |
| ResponseGenerator.ContextIgnoresOlderLines | backend/modules/llm/response_generator.py:410-425 | only the newest five history lines and three own lines matter |
| ResponseGenerator.FirstSpeakerIgnoresTurn | backend/modules/llm/response_generator.py:416 | the first speaker's context ignores the lines of the turn |
| ResponseGenerator.NoHistoryExactlyWhenEmpty | backend/modules/llm/response_generator.py:425 | the placeholder is used exactly when nothing is to be shown |
| ResponseGenerator.ConversationAnswerSpec | backend/modules/llm/response_generator.py:443-493 | success on every path; the fallback without a successful response; a decoded object's `agent_response` is passed on; undecodable content becomes the stripped content as a normal reply; any other value gives the fallback |
| ResponseGenerator.TopicKeywords | backend/modules/llm/response_generator.py:609-623 | at most the list length; a keyword is extracted exactly when it is listed and occurs in the lowercased topic |
| ResponseGenerator.TopicKeywordsInListOrder | backend/modules/llm/response_generator.py:609-623 | the extracted keywords are a subsequence of the list |
| ResponseGenerator.LastSpeakerSpec | backend/modules/llm/response_generator.py:570-571 | with a ':' the line is speaker, ':', rest, and the content is the stripped rest; without one the placeholder speaker and empty content |
| ResponseGenerator.FallbackCaseSpec | backend/modules/llm/response_generator.py:495-607 | the first speaker never follows up; a later one follows up exactly when the turn has lines, answering the last line's speaker, and one with its own earlier lines also refers back to them; a first speaker without own lines on a weather topic not about development or the community gets the weather case |
| CommandParser.PatternHits | backend/modules/llm/command_parser.py:163-167 | the hit count is between 0 and the number of patterns |
| CommandParser.CountMatches | backend/modules/llm/command_parser.py:163-167 | the inner loop's count equals the hit count |
| CommandParser.DetectCommandType | backend/modules/llm/command_parser.py:158-175 | the type with strictly most hits, the earliest on a tie, `Unknown` when none match |
| CommandParser.NoMatchIsUnknown | backend/modules/llm/command_parser.py:158-175 | no matching pattern gives `Unknown` |
| CommandParser.TypeAgrees | backend/modules/llm/command_parser.py:158-175 | the loop and the function both give the first strict maximum |
| CommandParser.TypeFromBefore | backend/modules/llm/command_parser.py:168-173 | before the winner the running maximum stays below its hits; from it on the type is the winner |
| CommandParser.TypeFromAfter | backend/modules/llm/command_parser.py:168-173 | once the maximum is reached no later row replaces it |
| CommandParser.FirstPresentSpec | backend/modules/llm/command_parser.py:181-190 | the first listed word present wins; with none present the default is kept |
| CommandParser.ExtractActionAndTargets | backend/modules/llm/command_parser.py:177-206 | the first listed verb present (or "执行") and exactly the listed nouns present |
| CommandParser.FirstKeysDistinct | backend/modules/llm/command_parser.py:230-236 | the first fourteen words of the intensity literal hold every key once |
| CommandParser.LiteralEndsWithRepeat | backend/modules/llm/command_parser.py:230-236 | the literal is those words followed by a second "彻底" |
| CommandParser.IntensityDictionary | backend/modules/llm/command_parser.py:230-236 | the literal evaluates to a dictionary where the repeated "彻底" keeps its place and takes the value 5 |
| CommandParser.ExtractIntensity | backend/modules/llm/command_parser.py:238-244 | the loop with `break` gives the first listed word's value, else 2 |
| CommandParser.FirstValueFrom | backend/modules/llm/command_parser.py:238-244 | the intensity is one of the table's values or the default |
| CommandParser.IntensityRange | backend/modules/llm/command_parser.py:230-244 | the intensity is in 1..5, and "彻底" with none of the first eleven words gives 5 |
| CommandParser.UrgencySpec | backend/modules/llm/command_parser.py:248-263 | the highest level with a keyword present, in 1..5, and 2 when nothing matches |
| CommandParser.UrgencyLevelsDescending | backend/modules/llm/command_parser.py:250-261 | the source's table lists levels in descending order |
| CommandParser.ImpactFactor | backend/modules/llm/command_parser.py:280-287 | the factor is 3/2, 1/2, 2 or 1, and 1 exactly when no intensity word occurs |
| CommandParser.ScaleStat | backend/modules/llm/command_parser.py:289-293 | the scaled value is in [-50, 50] |
| CommandParser.PredictImpact | backend/modules/llm/command_parser.py:265-295 | the loop's result is the predicted-impact function |
| CommandParser.PredictedImpactSpec | backend/modules/llm/command_parser.py:265-295 | every change is in [-50, 50]; when the action has its own entry, the text matters only through its intensity factor |
| CommandParser.NoKeywordNoImpact | backend/modules/llm/command_parser.py:273-278 | no keyword in the text sums to no impact |
| CommandParser.Keys | backend/modules/llm/command_parser.py:273-283 | the impact table's keys in order |
| CommandParser.ConfidenceSpec | backend/modules/llm/command_parser.py:297-322 | confidence is in [0, 1] without needing the cap, and reaches 0.3 exactly when the type is known, the action is not the default, or a long text has a keyword |
| CommandParser.ValidateSpec | backend/modules/llm/command_parser.py:324-346 | a command is valid exactly when it passes every check, in order |
| CommandParser.ParseCommand | backend/modules/llm/command_parser.py:117-156 | strips the text and runs every extractor |
| CommandParser.BlankCommandIsLowConfidence | backend/modules/llm/command_parser.py:297-346 | a blank command with no matching pattern, verb or keyword is refused as too unclear, before the empty-command check |
| CommandParser.Matching | backend/modules/llm/command_parser.py:365-371 | at most the list length; a suggestion is kept exactly when it shares a character with the input |
| CommandParser.CommandSuggestions | backend/modules/llm/command_parser.py:348-373 | at most five suggestions, all from the list; no input or no match gives the first five; otherwise every suggestion shares a character with the lowered input |
| Agents.ChangedSpec | backend/modules/simulation/agent.py:71-77 | a change sets its statistic to the clamped sum, leaves the others, and an unknown name changes nothing |
| Agents.ApplyChangesInRange | backend/modules/simulation/agent.py:71-77 | updating keeps every statistic in [0, 100] |
| Agents.ApplyChangesUntouched | backend/modules/simulation/agent.py:71-77 | a statistic no change names keeps its value |
| Agents.ApplyChangesUnknown | backend/modules/simulation/agent.py:73-74 | changes naming no statistic change nothing |
| Agents.ApplyChangesTouched | backend/modules/simulation/agent.py:75-77 | a named statistic ends in [0, 100] whatever it was |
| Agents.Stats.constructor | backend/modules/simulation/agent.py:54-70 | the given starting values |
| Agents.Stats.UpdateStats | backend/modules/simulation/agent.py:71-77 | the values become the applied-changes function of the old ones |
| Agents.Kept | backend/modules/simulation/agent.py:160-166 | the kept memories number `min(n, 100)` and are drawn from the input |
| Agents.AscendingOrdered | backend/modules/simulation/agent.py:163 | the ascending sort orders by `(importance, timestamp)` |
| Agents.SplitOrdered | backend/modules/simulation/agent.py:163-166 | nothing before the cut comes after anything behind it |
| Agents.KeptAreLargest | backend/modules/simulation/agent.py:160-166 | kept and dropped together are the input; no dropped memory is after a kept one, and past the limit the kept ones are ascending |
| Agents.RecentMemoriesSpec | backend/modules/simulation/agent.py:168-170 | at most `count`, drawn from the memories, newest first, and none left out is newer than one returned |
| Agents.ImportantMemoriesSpec | backend/modules/simulation/agent.py:172-174 | at most `count`, drawn from the memories, most important first, and none left out is more important |
| Agents.Relationship | backend/modules/simulation/agent.py:176-180 | the strength lies in [-100, 100] |
| Agents.RelationshipSpec | backend/modules/simulation/agent.py:176-180 | a first contact starts from 0; within bounds the change adds exactly, beyond them it saturates |
| Agents.ReactionIntensity | backend/modules/simulation/agent.py:206-226 | the intensity is in 1..5 |
| Agents.IntensityMonotone | backend/modules/simulation/agent.py:206-226 | a larger impact or a larger personality multiplier never weakens the reaction |
| Agents.Strength | backend/modules/simulation/agent.py:236-249 | the word index is 0, 1 or 2 |
| Agents.EmotionSpec | backend/modules/simulation/agent.py:228-249 | pleased exactly on a larger positive side, worried on a larger negative one, calm on a tie; from intensity 4 the strongest word |
| Agents.StrengthMonotone | backend/modules/simulation/agent.py:236-249 | a higher intensity never picks a weaker word |
| Agents.PersonalFromKeys | backend/modules/simulation/agent.py:274-285 | every produced key comes from the accumulator or is some entry's target |
| Agents.PersonalFromKeeps | backend/modules/simulation/agent.py:274-285 | a key already present stays present |
| Agents.PersonalImpactAsWrittenKeys | backend/modules/simulation/agent.py:274-285 | as written, every key is a statistic and never wealth from "economy" |
| Agents.EconomyIgnoredAsWritten | backend/modules/simulation/agent.py:274-285 | as written, an impact with only "economy" entries gives no personal impact |
| Agents.EconomyCounterexample | backend/modules/simulation/agent.py:274-285 | a merchant loses the whole effect of an economic event |
| Agents.PersonalImpactKeys | backend/modules/simulation/agent.py:251-287 | corrected, every key is a statistic and an "economy" entry always reaches wealth |
| Agents.EconomyReachesWealth | backend/modules/simulation/agent.py:276 | corrected, a non-zero economy share lands on wealth |
| Agents.InvitationBlocksRepeat | backend/modules/simulation/agent.py:503-508 | under 100 memories an invitation blocks another for three days |
| Agents.Agent.constructor | backend/modules/simulation/agent.py:82-152 | default statistics adjusted by occupation, then personality; empty memories and relationships |
| Agents.Agent.AddMemory | backend/modules/simulation/agent.py:154-166 | memories become the kept list of the old ones plus the new memory |
| Agents.Agent.UpdateRelationship | backend/modules/simulation/agent.py:176-180 | only that relationship changes, to the relationship function |
| Agents.Agent.ReactToEvent | backend/modules/simulation/agent.py:182-204 | the reaction's intensity, emotion and corrected personal impact; statistics updated; the event remembered with the intensity as importance |
| Agents.Agent.InitiateInvitation | backend/modules/simulation/agent.py:497-528 | refused when ineligible or recently invited; otherwise the friend is invited and the invitation remembered |
| Agents.CanInviteSpec | backend/modules/simulation/agent.py:324-345 | an eligible resident is active with at least 30 social connections; outgoing personalities then always are, others only on a draw above 0.7 |
| Engine.CommunityInRange | backend/modules/simulation/engine.py:134-169 | the population is the number of residents and the averages lie in [0, 100] |
| Engine.CommunityOfEquals | backend/modules/simulation/engine.py:134-169 | residents with equal statistics average to those statistics |
| Engine.EconomyFromWealth | backend/modules/simulation/engine.py:160-166 | the economy figure depends only on the residents' wealth |
| Engine.EmptyCommunityCannotScale | backend/modules/simulation/events.py:378-379 | with no residents the population is 0 and the impact scale fails |
| Engine.EveryoneReacts | backend/modules/simulation/engine.py:177-185 | an event listing nobody reaches every resident, in order |
| Engine.ReactionsCount | backend/modules/simulation/engine.py:177-185 | one reaction per concerned resident |
| Engine.ReactOne | backend/modules/simulation/engine.py:179-185 | a concerned resident reacts; anyone else is unchanged |
| Engine.NewResident | backend/modules/simulation/engine.py:33-53 | a fresh agent with the table's name, personality and occupation |
| Engine.CreateResidents | backend/modules/simulation/engine.py:33-53 | one fresh agent per table entry, in order, with distinct ids |
| Engine.Simulation.constructor | backend/modules/simulation/engine.py:18-53 | stopped, with the eight default residents |
| Engine.Simulation.StartSimulation | backend/modules/simulation/engine.py:55-66 | does nothing when running; otherwise starts and stamps the time |
| Engine.Simulation.StopSimulation | backend/modules/simulation/engine.py:68-71 | clears the running flag and nothing else |
| Engine.ReactAll | backend/modules/simulation/engine.py:175-179 | the loop leaves every resident valid, collects the reactions of the concerned residents in order, and leaves the others unchanged |
| Engine.Simulation.ApplyEvent | backend/modules/simulation/engine.py:171-198 | concerned residents react in order, others stay, the event joins the history once |
| Engine.Simulation.UpdateSimulation | backend/modules/simulation/engine.py:83-99 | nothing within 6 minutes; past 6 hours an event is generated for the statistics of the old residents; the time is stamped unless generation raised; an applied event sets its type's cooldown, joins the history and leaves every resident as the event says, while otherwise neither cooldowns nor residents change |
| Engine.Simulation.UpdateWithEvent | backend/modules/simulation/engine.py:96-99 | the same facts as the update past 6 hours |
| Engine.Simulation.StampAndApply | backend/modules/simulation/engine.py:96-99 | a raised generation changes nothing; otherwise the time is stamped and the event applied when there is one |
| Engine.Simulation.Stamp | backend/modules/simulation/engine.py:99 | only the update time changes |
| Engine.Simulation.TryGenerateEvent | backend/modules/simulation/engine.py:124-132 | the event for the current statistics is applied when there is one; an applied event sets its type's cooldown, joins the history and leaves every resident as the event says; otherwise neither cooldowns nor residents change; a raised error ends the attempt |
| Engine.Simulation.Generate | backend/modules/simulation/engine.py:126-130 | the generated event for the old statistics; only the cooldowns of a generated event's type change |
| Engine.Simulation.ApplyGenerated | backend/modules/simulation/engine.py:131-132 | an event is applied exactly when one was generated; the cooldowns are unchanged |
| Events.ScaleValue | backend/modules/simulation/events.py:49-56 | scaling by a non-negative factor keeps the sign and never exceeds the exact product |
| Events.ScaleByOne | backend/modules/simulation/events.py:49-56 | a factor of 1 changes nothing |
| Events.ScaleKeepsSign | backend/modules/simulation/events.py:49-56 | a non-negative factor keeps every field's sign |
| Events.IsExpiredSpec | backend/modules/simulation/events.py:90-95 | inactive means expired; active expires exactly after its end; expiry is permanent |
| Events.SeverityMonotone | backend/modules/simulation/events.py:419-430 | a larger impact never gives a lower severity; below 20 exactly minor, 80 or more exactly critical |
| Events.CustomEvent | backend/modules/simulation/events.py:399-417 | active, listing nobody, stamped now, with the given type and impact and the severity of that impact |
| Events.MatchingSpec | backend/modules/simulation/events.py:336-340 | the matching templates are exactly those of the type |
| Events.SelectTemplate | backend/modules/simulation/events.py:334-347 | no template when none matches; otherwise a matching one |
| Events.SelectTemplateCovers | backend/modules/simulation/events.py:342-347 | every matching template is some pick's choice |
| Events.SelectTemplateType | backend/modules/simulation/events.py:342-347 | every choice has the requested type |
| Events.NoKindNoMatch | backend/modules/simulation/events.py:334-347 | a type not in the template types has no matching template |
| Events.KindMatches | backend/modules/simulation/events.py:334-347 | a type in the template types has a matching template |
| Events.UntemplatedTypes | backend/modules/simulation/events.py:105-215 | economic, social, educational and health events have no template |
| Events.TemplatedTypes | backend/modules/simulation/events.py:105-215 | every other type has a template |
| Events.AvailableSpec | backend/modules/simulation/events.py:245-255 | the available types are exactly the listed ones not cooling down |
| Events.AvailableTypes | backend/modules/simulation/events.py:245-255 | the loop returns the available-types function |
| Events.WeightPositive | backend/modules/simulation/events.py:257-313 | every weight is positive |
| Events.EventProbabilities | backend/modules/simulation/events.py:257-313 | the loop returns the probabilities function, one entry per available type |
| Events.Probabilities | backend/modules/simulation/events.py:257-313 | one entry per available type, in order, keyed by that type |
| Events.WeightedChoice | backend/modules/simulation/events.py:315-332 | the running-sum loop returns the weighted-choice function |
| Events.ChooseFirstReaching | backend/modules/simulation/events.py:323-330 | the loop returns the first later type whose running sum reaches the target |
| Events.WeightedChoiceSpec | backend/modules/simulation/events.py:315-332 | no choice exactly without a positive total; otherwise, for a draw in [0, 1], the first type whose running sum reaches draw × total |
| Events.ChooseIsKey | backend/modules/simulation/events.py:315-332 | the choice is one of the keys |
| Events.ImpactScaleSpec | backend/modules/simulation/events.py:365-381 | the scale is between 0.35 and 2.7, and fails exactly for a population of 0 |
| Events.NothingAvailable | backend/modules/simulation/events.py:220-222 | nothing is generated when every type cools down |
| Events.ChoiceMade | backend/modules/simulation/events.py:224-228 | a type is chosen whenever some type is available |
| Events.ChoiceIsListed | backend/modules/simulation/events.py:315-332 | a choice is always a listed type |
| Events.GeneratedEvent | backend/modules/simulation/events.py:217-243 | a generated event's type was available, it comes from a template of that type, and it starts now |
| Events.PositiveTotal | backend/modules/simulation/events.py:257-313 | the total weight of a non-empty list is positive |
| Events.EventGenerator.constructor | backend/modules/simulation/events.py:100-104 | no history and no cooldowns |
| Events.EventGenerator.GenerateRandomEvent | backend/modules/simulation/events.py:217-243 | the generation function's event; the cooldown is set only once the event is built |
| Events.EventGenerator.AddEventToHistory | backend/modules/simulation/events.py:436-442 | appends and keeps the newest 100 |
| Events.HistorySpec | backend/modules/simulation/events.py:436-442 | the added event is kept as the newest and at most 100 remain |
| Events.EventHistorySpec | backend/modules/simulation/events.py:432-434 | at most `limit` events, newest first, none left out newer than one returned |
| Events.CooldownBlocks | backend/modules/simulation/events.py:383-397 | after a cooldown is set the type is unavailable until its end and available after |
| Prompts.FormatSpec | backend/modules/llm/prompts.py:375-380 | formatting succeeds exactly when every piece renders; one JSON example means it never does |
| Prompts.FormatFirstError | backend/modules/llm/prompts.py:375-380 | a failure is the first piece that does not render |
| Prompts.PieceNames | backend/modules/llm/prompts.py:375-377 | every non-escape piece's name is listed |
| Prompts.FormatLocal | backend/modules/llm/prompts.py:375-377 | formatting depends only on the names the template mentions |
| Prompts.MissingSpec | backend/modules/llm/prompts.py:365-372 | the missing list names exactly the absent parameters; empty exactly when all are present |
| Prompts.MissingAppend | backend/modules/llm/prompts.py:366-368 | one more parameter is appended exactly when absent, so declared order is kept |
| Prompts.CollectMissing | backend/modules/llm/prompts.py:365-369 | the loop collects exactly the missing list |
| Prompts.LookupSpec | backend/modules/llm/prompts.py:360-363 | a listed name finds its template; an unlisted one finds nothing |
| Prompts.LookupAt | backend/modules/llm/prompts.py:360-363 | the name at position `i`, absent earlier, finds the template at `i` |
| Prompts.GetPrompt | backend/modules/llm/prompts.py:349-380 | the result is the prompt function's outcome |
| Prompts.PromptOutcome | backend/modules/llm/prompts.py:349-380 | unknown name first, then every missing parameter, then formatting; success is the formatted pair from the same arguments |
| Prompts.ExtraArguments | backend/modules/llm/prompts.py:365-380 | extra arguments the template never mentions change nothing |
| Prompts.MissingLocal | backend/modules/llm/prompts.py:365-372 | the missing list depends only on which declared parameters are supplied |
| Prompts.FillWellFormed | backend/modules/llm/prompts.py:365-380 | a well-formed template formats once every declared parameter is supplied |
| Prompts.FillJsonExample | backend/modules/llm/prompts.py:375-380 | a JSON example in the system prompt means it never formats |
| Prompts.FormatAppendEscaped | backend/modules/llm/prompts.py:186-191 | a rendered escape appends its single brace |
| Prompts.FormatEndsEscaped | backend/modules/llm/prompts.py:186-191 | two escapes at the end come out as two single braces |
| Prompts.JsonTemplatesFail | backend/modules/llm/prompts.py:59-73 | the four templates with single-brace JSON examples fail for every argument set |
| Prompts.AgentResponseWellFormed | backend/modules/llm/prompts.py:82-112 | that template's fields are all declared and it holds no JSON example |
| Prompts.ChatResponseWellFormed | backend/modules/llm/prompts.py:287-311 | that template's fields are all declared and it holds no JSON example |
| Prompts.ConversationWellFormed | backend/modules/llm/prompts.py:115-199 | that template's fields are all declared and it holds no JSON example |
| Prompts.PlainTemplatesFormat | backend/modules/llm/prompts.py:82-311 | the chat-reply templates format once their parameters are supplied |
| Prompts.ConversationBraces | backend/modules/llm/prompts.py:186-191 | on the model's shortened stand-in for the conversation template: it formats once its parameters are supplied, and its system prompt ends in the single braces "{}" that the doubled braces of the source produce |
| Prompts.ListTemplates | backend/modules/llm/prompts.py:382-392 | one summary per registered template, in order |
| Prompts.Preview | backend/modules/llm/prompts.py:405 | at most 200 characters unchanged; a longer text becomes its first 200 plus "..." |
| Prompts.TemplateInfo | backend/modules/llm/prompts.py:394-406 | an error exactly for an unknown name; otherwise the template's summary and a preview of at most 203 characters, taken from the model's shortened stand-in template texts |
| LlmConfig.ProviderSpec | backend/modules/llm/config.py:54-59 | the provider's value equals the lowered setting, or it is `OpenAI` when no value does |
| LlmConfig.ProviderFromSpec | backend/modules/llm/config.py:56-59 | from position `i` the first matching member is found, else `OpenAI` |
| LlmConfig.ResolveProvider | backend/modules/llm/config.py:54-59 | the loop with early return gives the provider function |
| LlmConfig.ApiKeySpec | backend/modules/llm/config.py:62-66 | a key exactly when one variable is non-empty, the first non-empty in order |
| LlmConfig.LoadConfig | backend/modules/llm/config.py:50-88 | provider and key as resolved; unset numeric settings take the defaults 1000, 0.7, 60 and 90000 |
| LlmConfig.DefaultsValid | backend/modules/llm/config.py:113-130 | with defaults only the key and the Azure settings decide validity |
| LlmConfig.ValidateSpec | backend/modules/llm/config.py:113-130 | valid exactly when every requirement holds, and exactly then "配置有效" |
| LlmConfig.ValidateOrder | backend/modules/llm/config.py:115-126 | a missing key is reported first, the endpoint before the deployment, only Azure asks for them |
| ChatHandler.FirstKeyword | backend/modules/ai/chat_handler.py:59-61 | the earliest keyword from `i` on that occurs, none exactly when none occurs |
| ChatHandler.Respond | backend/modules/ai/chat_handler.py:46-92 | the first keyword's reply overrides all; else short under 10 characters, then questions, then general; picks within their lists |
| ChatHandler.ShortQuestion | backend/modules/ai/chat_handler.py:64-73 | a short question gets a short reply |
| ChatHandler.KeywordOverrides | backend/modules/ai/chat_handler.py:59-61 | a keyword reply ignores the roll and survives an added "?" |
| ChatHandler.AnalyzeSentiment | backend/modules/ai/chat_handler.py:114-135 | positive or negative exactly on strictly more hits; neutral exactly on a tie |
| ChatHandler.NoWordsNeutral | backend/modules/ai/chat_handler.py:114-135 | a message with no listed word is neutral |
| EnvLoader.BreakAt | backend/main.py:30 | the first line boundary, none before it |
| EnvLoader.SplitLines | backend/main.py:30 | no line holds a boundary; no lines exactly for empty text; one line for text without boundaries |
| EnvLoader.SplitFirst | backend/main.py:33 | the text is the part before, '=', and the rest; the part before holds no '=' |
| EnvLoader.ParseLine | backend/main.py:31-32 | a line is skipped exactly when its stripped form is empty, a comment, or has no '=' |
| EnvLoader.ParseLineSpec | backend/main.py:33-35 | a kept line splits at its first '=' into the stripped key and the unquoted rest, which may hold '=' |
| EnvLoader.LastForSpec | backend/main.py:36 | the last assignment of the key is found, or none exactly when no line sets it |
| EnvLoader.LastWins | backend/main.py:36 | a variable holds the last value set for it; an unset one keeps its old state |
| EnvLoader.Environment.constructor | backend/main.py:11-41 | the given variables |
| EnvLoader.Environment.LoadEnv | backend/main.py:11-41 | nothing changes without a file; otherwise the variables are the old ones with every line applied in order |
| EnvLoader.EmptyKeyAbortsAsWritten | backend/main.py:32-36 | the line "=x" passes the guards with an empty key and, as written, aborts the load |
| EnvLoader.AsWrittenAgrees | backend/main.py:32-36 | without empty keys the written and corrected loads agree |
| EnvLoader.NoEmptyName | backend/main.py:36 | the corrected load never creates a variable with an empty name |

## Left out

- HTTP routers, persistence, the frontend and the test scripts are not part of this model. The database reads inside the handlers (recent conversation context, a resident's history) are inputs.
- The OpenAI/Azure client setup and `chat.completions.create` are foreign calls. Their outcome, or the error they raise, is a parameter.
- `asyncio`, the background loop and its sleeps are left out: `UpdateSimulation` is called explicitly. `datetime.now()` is a single `now` per call, whereas the source reads the clock several times.
- `uuid` identifiers are a parameter `ids` taken to be distinct.
- The engine stamps the update time after generating the event but before the residents react to it, where the source stamps after the reactions. The reactions neither read nor write the time stamp and cannot raise, so the final state is the same.
- Logging and `print` are left out. The engine's `_update_community_stats` only logs the averages it computes, so it has no effect to model.
- Floats are Dafny reals, with no rounding or IEEE behaviour. Agent multipliers and relevance use integer tenths.
- Template prose is left out: the prompt templates, whose texts the model replaces by shortened stand-ins keeping the placeholders and braces, the reply lists of the response generator's fallback, and the optimized chat system. A reply names its list and the position picked, or keeps the name-bearing parts that are proved. The smart handler's fallback lists are given word for word.
- `agent.py` `_calculate_compatibility` and the friend-suggestion functions are left out: they refer to personalities that do not exist, so they always raise.
- `agent.py` accessors and `to_dict`-style serialisers are left out. `get_all_agents`, `get_agent_by_id`, `get_simulation_status` and `get_recent_events` in the engine are left out too; they only read fields.
- `realistic_chat_system.py` `_build_conversation_context` is left out: its result is never passed on.
- `chat_handler.py` `get_system_message` is left out: a fixed text table with no logic.
- `chat_handler.py`: the `except` branch of `generate_response` is left out, because nothing in the `try` block raises.
- `config.py` `get_client_config` is left out: a dictionary of the loaded fields, with no logic.
- `response_generator.py`: the prompt-formatting helpers other than `generate_response` and the conversation reply are left out; they are calls to `get_prompt` followed by the client call.
- `test_env.py` repeats the `.env` parser. It is not modelled a second time.
- Reading the `.env` file and trying its encodings are left out. `LoadEnv` receives the decoded text, or `None` for a missing file.
- LlmConfig.LoadConfig: `int()` and `float()` parsing of numeric variables is abstracted into a `Numbers` value holding the parsed settings. A malformed number, which raises in the source, is not modelled.
- Text.Lower: maps ASCII letters only. This is exact for provider matching, since the provider values are lower-case ASCII.
- Prompts.FormatSpec: a JSON example's nested replacement field, which raises `KeyError` for some specs in the source, is one always-failing piece reported as an invalid format spec. Both end in the same `ValueError` of `get_prompt`.
- SmartChat.Handler.CommitProposal: an id without a profile delivers nothing instead of raising `KeyError`. Only ids from the profiles are ever passed.
- Agents.Agent.InitiateInvitation: the virtual friend is a parameter. Its list is never empty, so the source's "no friends" branch is dead.
- Agents.Kept: after trimming, `memories[-10:]` reads the ten most important memories, not the ten newest. The model keeps this order as the source does.
- Agents.Agent.ReactToEvent: uses the corrected personal impact (see Findings).
- RealisticChat.Handler.GenerateAgentResponse: uses the corrected reply key (see Findings).
- EnvLoader.Environment.LoadEnv: uses the corrected handling of an empty name (see Findings). NUL characters in names or values, which the platform also rejects, are not modelled.
- CommandParser.ParseCommand: the number and time-reference extraction of `_extract_parameters` is left out; the regex matches are abstract.
- SmartChat.ParticipationScore, EnhancedChat.ParticipationScore, RealisticChat.ParticipationScore: the exact float products are real arithmetic. Only the clamps and the orderings proved are claimed.

## Findings

| source | as written | input that shows it | evidently intended | confidence | as-written member | corrected member |
|---|---|---|---|---|---|---|
| backend/modules/simulation/agent.py:274-285 | the personal-impact filter keeps only `happiness`, `health`, `education` and `wealth`, so an `economy` entry is dropped although line 276 maps economy to wealth | a merchant and an event whose impact is only `economy: 10` | an `economy` entry reaches the resident's wealth | not executed; high | Agents.EconomyCounterexample | Agents.EconomyReachesWealth |
| backend/modules/ai/realistic_chat_system.py:330-335 | the reply is read from `response["content"]`, a key the generator never returns (response_generator.py:449-464) | a generator success with `agent_response: "你好"` | the resident says the generated reply | not executed; high | RealisticChat.AsWrittenCounterexample | RealisticChat.ReplyKeepsGeneratedReply |
| backend/main.py:32-36 | a line `=x` passes every guard and sets `os.environ[""]`, which the platform rejects, so `load_env` raises at start-up | the `.env` line `=x` | lines with an empty name are skipped | not executed; medium (depends on the platform rejecting an empty variable name) | EnvLoader.EmptyKeyAbortsAsWritten | EnvLoader.NoEmptyName |
