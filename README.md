# Krishi Jyoti — a verified model of the farm-advisory rules

Krishi Jyoti is a farmer-support application. It has a FastAPI backend, a
Deepgram voice agent, language-model chat bots and a React frontend. This
project models in Dafny the parts of it that follow fixed rules, and proves
what those rules guarantee:

- the voice session (`VoiceAgent`): its running flag, connection, audio
  buffer, keep-alive worker and the posting of upstream events to the
  WebSocket callback;
- the `/ws/voice` WebSocket gateway: role-to-frame dispatch, the receive
  loop, close code 1003 for a non-binary message (section 7.4.1 of
  RFC 6455) and the `finally` that always stops the agent;
- the 44-byte canonical PCM WAVE header of the RIFF format, written slice by
  slice into a 44-byte buffer;
- the agricultural weather rules: location parameters, grouping of 3-hour
  forecast items into days, irrigation score and level, pest and disease
  risk, optimal activity days and frost risk;
- the scheme routers: the MSP crop filter, the `/all` category filter with
  Python-slice pagination and `total_pages`, the scheme lookup, and the
  feedback rating check with its HTTP error mapping;
- the RAG pipeline's text handling: the route decision, parsing of enhanced
  queries, deduplication by the first 100 characters, the 8-chunk cap and
  the 4000-character truncation;
- both crop-recommendation bots: city extraction with the `in\s+([A-Za-z ]+)`
  regular expression, soil defaults, the model feature row, the missing-key
  error, the weather fallback, top-3 ranking, validation and the reply
  branches;
- the bounded chat history shared by the three chat bots (append, then keep
  the last 10);
- the subsidies page: the search filter, the benefit cap with JavaScript
  `parseInt`, the calculator rows, the eligibility list, the apply button and
  the deadline label.

Foreign services become parameters of the model, each as the answer it gave:

- the language models (Cerebras);
- the Deepgram SDK;
- the weather HTTP API;
- the vector database;
- the pickled scikit-learn model.

Files:

| file | models |
|---|---|
| `wrappers.dfy` | `Option` and `Result` |
| `py_text.dfy` | Python and JavaScript string and sequence semantics used throughout |
| `http.dfy` | status codes and `HTTPException` |
| `chat_history.dfy` | the bounded history |
| `voice_agent.dfy` | the voice session |
| `voice_gateway.dfy` | the WebSocket gateway |
| `wav_header.dfy` | the WAV header |
| `agri_weather.dfy` | the weather rules |
| `schemes_router.dfy` | the scheme listing endpoints |
| `feedback_router.dfy` | the feedback endpoint |
| `schemes_rag.dfy` | the RAG pipeline |
| `schemes_chatbot.dfy` | the schemes chat bot |
| `simple_crop_chatbot.dfy` | the simple crop chat bot |
| `weather_crop_bot.dfy` | the backend crop bot |
| `ranking.dfy` | its top-3 ranking |
| `crop_bot.dfy` | the command-line crop bot |
| `subsidies.dfy` | the subsidies page |

Where the code and its documentation disagree, the model follows the code:

- Both size fields of the WAV header stay zero.
- An empty forecast list raises `KeyError('temps')`.
- `limit = 0` is reported as HTTP 500.
- The original query can be cut off by the 4-query limit.

## Model

| member | source | states |
|---|---|---|
| VoiceSession.NewVoiceAgent | backend/ai/Voice/voice_agent_class.py:30-57 | Construction fails with "DEEPGRAM_API_KEY environment variable is not set" exactly when the key is missing or empty. Otherwise the new agent is not running, has no connection, an empty buffer, nothing sent, nothing emitted and no keep-alive worker. |
| VoiceSession.VoiceAgent.constructor | backend/ai/Voice/voice_agent_class.py:51-57 | The initial state: not running, no connection, empty audio buffer, no main loop. |
| VoiceSession.VoiceAgent.CaptureLoop | backend/api/routers/voice_ws.py:36-41 | The gateway hands the agent its running event loop. Afterwards `_main_loop` is set. |
| VoiceSession.VoiceAgent.Post | backend/ai/Voice/voice_agent_class.py:110-115 | A (role, content) pair is posted to the callback, in call order, exactly when both a callback and a main loop are present. |
| VoiceSession.VoiceAgent.HandleEvent | backend/ai/Voice/voice_agent_class.py:102-238 | One upstream event updates the audio buffer as `BufferAfter` says: audio data extends it; audio done, user started speaking and agent started speaking clear it. The event's emissions are appended only when a callback and a loop exist. |
| VoiceSession.EmissionShape | backend/ai/Voice/voice_agent_class.py:107-222 | Every event emits at most one pair, and its role is one the handlers use. The payload is bytes exactly for role "audio", and then it is the event's own audio chunk. |
| VoiceSession.ConversationTextForwarding | backend/ai/Voice/voice_agent_class.py:127-151 | Conversation text is forwarded if and only if its string form lacks "History" and its role is "user" or "assistant". It is then forwarded as (role, content), with the string form standing in for a missing content. |
| VoiceSession.SilentEvents | backend/ai/Voice/voice_agent_class.py:203-238 | History, settings-applied, close and unhandled events emit nothing and leave the buffer unchanged. |
| VoiceSession.BufferIsAudioSinceBoundary | backend/ai/Voice/voice_agent_class.py:107-201 | After any sequence of events, the buffer is the concatenated audio of the events since the last clearing event. The old buffer counts only if no clearing event occurred. |
| VoiceSession.VoiceAgent.Start | backend/ai/Voice/voice_agent_class.py:274-302 | When already running: returns false and changes nothing. Otherwise it returns true exactly when the upstream start accepts; `running` then equals the result, and exactly one keep-alive worker is added on success. The connection exists unless setup raised before creating it. |
| VoiceSession.VoiceAgent.Stop | backend/ai/Voice/voice_agent_class.py:304-315 | Afterwards the agent is not running. `finish` is called once, only if it was running with a connection, so a second stop changes nothing. |
| VoiceSession.VoiceAgent.SendAudio | backend/ai/Voice/voice_agent_class.py:317-332 | The exact bytes go upstream only when a connection exists, the agent is running and the send does not raise. Otherwise nothing is sent, and no error escapes. |
| VoiceSession.VoiceAgent.KeepAliveWake | backend/ai/Voice/voice_agent_class.py:265-272 | One wake from sleep sends one keep-alive frame iff connected and running and the send does not raise. The loop continues iff it is still running and no send raised; `running` is unchanged. |
| VoiceSession.VoiceAgent.KeepAliveWorker | backend/ai/Voice/voice_agent_class.py:263-272 | Given the outcome of each wake, the worker sends as many keep-alive frames as there are successful sends before the first failure, and stops after that failure. It never changes `running`. |
| VoiceSession.LeadingSuccesses | backend/ai/Voice/voice_agent_class.py:265-272 | The number of wakes before the first failing send: all before it succeed, and the one at it fails. |
| VoiceSession.KeepAlives | backend/ai/Voice/voice_agent_class.py:269 | n wakes that send produce exactly n keep-alive frames. |
| VoiceGateway.OnResponseDispatch | backend/api/routers/voice_ws.py:19-29 | A text payload yields a frame iff the role is "assistant", "user" or "audio". "assistant" yields agent_response with the text; "user" yields partial_transcript with the text. |
| VoiceGateway.OnResponse | backend/api/routers/voice_ws.py:19-29 | The callback produces a frame iff the role is "audio", or "assistant"/"user" with a text payload. `OnResponseDispatch` and `AudioFrameKeepsBytes` give the frame kinds and contents. |
| VoiceGateway.AudioFrameKeepsBytes | backend/api/routers/voice_ws.py:26-29 | Role "audio" yields one agent_audio frame whose list has the same length and the same byte values in the same order. |
| VoiceGateway.AgentEmissionsReachingClient | backend/api/routers/voice_ws.py:19-29 | Of what the agent emits, exactly the "user", "assistant" and "audio" pairs reach the client. Status, error and audio_complete are dropped. |
| VoiceGateway.FirstNonBinary | backend/api/routers/voice_ws.py:49-56 | The position of the first non-binary inbound message, or the end. All earlier messages are binary frames or upstream events. |
| VoiceGateway.Deliver | backend/api/routers/voice_ws.py:49-52 | One inbound item: a binary frame goes through `send_audio`, and an upstream event goes through its handler. The frames sent to the client are those of all emissions so far. |
| VoiceGateway.Pump | backend/api/routers/voice_ws.py:49-56 | The receive loop ends with close code 1003 at the first non-binary message, or on disconnect. Every binary frame before it is forwarded unchanged and in order (when running). The buffer and the client frames follow the events received. |
| VoiceGateway.VoiceWs | backend/api/routers/voice_ws.py:11-63 | Without an API key no agent exists and nothing is sent. Otherwise the start result is ignored and the loop runs, forwarding audio only if the start was accepted. On every exit the agent is stopped, with `finish` called once exactly when it had started. |
| WavHeader.LittleEndianRoundTrip | backend/ai/Voice/voice_agent.py:36-40 | `to_bytes(width, 'little')` read back little-endian gives the value again, for every value that fits the width. |
| WavHeader.Ascii | backend/ai/Voice/voice_agent.py:30-41 | The byte tags are the ASCII codes of their characters. |
| WavHeader.FmtChunkDecodes | backend/ai/Voice/voice_agent.py:33-40 | The fmt chunk reads back as: tag "fmt ", length 16, format 1 (PCM), then channels, sample rate, byte rate, block align and bits per sample, each little-endian at its offset. |
| WavHeader.RiffAndDataFields | backend/ai/Voice/voice_agent.py:30-32 | The header starts with "RIFF", a zero size field and "WAVE". It ends with "data" and a zero size field. |
| WavHeader.HeaderDecodes | backend/ai/Voice/voice_agent.py:26-42 | Whenever every field fits: the header is 44 bytes with the four tags at offsets 0, 8, 12 and 36. It decodes to RIFF size 0, fmt length 16, PCM, the given channels, sample rate and bits, byte rate = rate·channels·(bits div 8), block align = channels·(bits div 8), and data size 0. |
| WavHeader.DefaultHeader | backend/ai/Voice/voice_agent.py:24-27 | The defaults (24000 Hz, 16 bit, mono) fit and give byte rate 48000 and block align 2. |
| WavHeader.CreateWavHeader | backend/ai/Voice/voice_agent.py:24-43 | It fails (`OverflowError`) iff some field does not fit its unsigned width, naming the first such field in writing order. Otherwise it returns a fresh 44-byte array equal to the header bytes. |
| WavHeader.WriteSlice | backend/ai/Voice/voice_agent.py:30-42 | A slice assignment `header[a:b] = bytes` writes exactly those bytes at that offset and leaves every other byte unchanged. |
| WavHeader.WriteRiffHeader | backend/ai/Voice/voice_agent.py:30-32 | Bytes 0..11 become the RIFF header. The rest of the buffer is unchanged. |
| WavHeader.WriteFmtChunk | backend/ai/Voice/voice_agent.py:33-40 | Bytes 12..35 become the fmt chunk. Bytes 0..11 and 36..43 are unchanged. |
| WavHeader.WriteDataHeader | backend/ai/Voice/voice_agent.py:41-42 | Bytes 36..43 become the data header, and the first 36 bytes are unchanged. |
| AgriWeather.LocationParams | backend/api/Wheather/wheatherapi.py:94-100 | A non-empty city wins over coordinates. With no city and no complete lat/lon pair, `WeatherAPIError` is raised, and only then. |
| AgriWeather.MinOf | backend/api/Wheather/wheatherapi.py:233 | `min` of the temperatures is one of them and no larger than any. |
| AgriWeather.MaxOf | backend/api/Wheather/wheatherapi.py:234 | `max` of the temperatures is one of them and no smaller than any. |
| AgriWeather.DailyOf | backend/api/Wheather/wheatherapi.py:204-209 | A day's accumulated record has one temperature, one humidity and one weather entry per item. |
| AgriWeather.Runs | backend/api/Wheather/wheatherapi.py:197-209 | Items split into non-empty runs that share one date, with no runs for no items. |
| AgriWeather.RunsFlatten | backend/api/Wheather/wheatherapi.py:197-209 | Concatenating the runs gives back the items: nothing is lost, duplicated or reordered. |
| AgriWeather.RunsMaximal | backend/api/Wheather/wheatherapi.py:200-204 | Neighbouring runs have different dates, so each run is a maximal block of consecutive same-date items. |
| AgriWeather.DaysOf | backend/api/Wheather/wheatherapi.py:200-213 | One aggregated day per run, dated with that run's date. |
| AgriWeather.GroupDays | backend/api/Wheather/wheatherapi.py:197-213 | The loop produces one aggregated day per maximal run. For no items it raises `KeyError('temps')`, because `daily_data` is still `{}`. |
| AgriWeather.AbsorbItem | backend/api/Wheather/wheatherapi.py:198-209 | One loop step keeps the invariant: the closed days plus the open day are exactly the runs of the items seen so far. |
| AgriWeather.FormatForecastData | backend/api/Wheather/wheatherapi.py:191-226 | Only the first days·8 items are grouped. The result is the days of their maximal runs, and an empty prefix is the `KeyError`. |
| AgriWeather.ForecastDaysCoverItems | backend/api/Wheather/wheatherapi.py:197-226 | `forecast_days` equals the number of runs. The runs cover the first days·8 items exactly, and consecutive days have different dates. |
| AgriWeather.IrrigationScore | backend/api/Wheather/wheatherapi.py:270-282 | The score of the four terms (+2, +3, +2, +2) lies in 0..9. |
| AgriWeather.IrrigationScoreMonotone | backend/api/Wheather/wheatherapi.py:270-282 | Less rain recently or forecast, lower humidity and higher temperature never lower the score. |
| AgriWeather.NeedLevel | backend/api/Wheather/wheatherapi.py:284-289 | High iff score ≥ 6, Medium iff 4 ≤ score < 6, Low iff score < 4. |
| AgriWeather.AssessIrrigationNeed | backend/api/Wheather/wheatherapi.py:261-300 | Recent precipitation defaults to 0. The forecast precipitation is the sum over the first 3 days. The score and level are those of the rules above, and the factors are reported as used. |
| AgriWeather.PestRisk | backend/api/Wheather/wheatherapi.py:302-313 | High iff temp > 25 and humidity > 70. Medium iff not High and temp > 20 and humidity > 60. Low otherwise. |
| AgriWeather.DiseaseRisk | backend/api/Wheather/wheatherapi.py:315-326 | High iff humidity > 80 and precipitation (default 0) > 1. Medium iff not High and humidity > 70. Low otherwise. |
| AgriWeather.RisksMonotone | backend/api/Wheather/wheatherapi.py:302-326 | Warmer, more humid and wetter conditions never lower either risk. |
| AgriWeather.OptimalActivityDays | backend/api/Wheather/wheatherapi.py:328-341 | The dates, in order, of the days among the first 3 with 15 ≤ max ≤ 28, min > 5 and precipitation < 1. There are at most 3, and each comes from a qualifying day. |
| AgriWeather.CollectFrostDays | backend/api/Wheather/wheatherapi.py:345-354 | The loop collects exactly the days with min ≤ 2, in order, as (date, min, level). |
| AgriWeather.AssessFrostRisk | backend/api/Wheather/wheatherapi.py:343-359 | `has_risk` iff some day has min ≤ 2. Every risk day has min ≤ 2, with level High iff min ≤ 0. |
| SchemesRouter.GetMspRates | backend/api/routers/schemes.py:14-55 | With a non-empty crop type: exactly the crops whose name contains it ignoring case, in order. Otherwise all crops. The year is "2024-25". |
| SchemesRouter.RiceFindsPaddy | backend/api/routers/schemes.py:50-53 | The filter ignores case: "RICE" keeps "Rice (Paddy)" alone. |
| SchemesRouter.FilterByCategory | backend/api/routers/schemes.py:122-124 | With a non-empty category: a scheme is kept iff its category contains the filter ignoring case. Otherwise the list is unchanged. |
| SchemesRouter.FilterByCategoryInOrder | backend/api/routers/schemes.py:122-124 | The category filter keeps list order and each scheme once: filtering a + [x] + b gives the matches of a, then x if its category matches, then the matches of b. |
| SchemesRouter.PageBounded | backend/api/routers/schemes.py:127-129 | For a positive limit, a page never holds more than `limit` schemes, whatever the page number. |
| SchemesRouter.PageIsBlock | backend/api/routers/schemes.py:127-129 | For page ≥ 1 and limit > 0, the page is the block from (page−1)·limit to page·limit, clamped to the list. |
| SchemesRouter.Page | backend/api/routers/schemes.py:127-129 | A page is one contiguous block of the list. `PageBounded` and `PageIsBlock` give its size and position. |
| SchemesRouter.TotalPagesIsCeiling | backend/api/routers/schemes.py:136 | For a positive limit, `(total + limit − 1) // limit` is the ceiling of total/limit: enough pages, no empty last page, and 0 pages for 0 schemes. |
| SchemesRouter.GetAllSchemes | backend/api/routers/schemes.py:60-139 | HTTP 500 "integer division or modulo by zero" iff limit is 0. Otherwise the page of the filtered schemes, `total` = filtered count independent of the page, and a `total_pages` that is the ceiling for a positive limit. |
| SchemesRouter.GetSchemeDetails | backend/api/routers/schemes.py:142-199 | "pm-kisan" is found with its own id. Every other id is HTTP 404 "Scheme not found", re-raised and not turned into 500. |
| FeedbackRouter.SubmitFeedback | backend/api/routers/feedback.py:15-38 | A rating outside 1..5 gives HTTP 400 "Rating must be between 1 and 5". Otherwise the service gets `FeedbackCreate` with the submitted fields; its result is returned. An `HTTPException` the service raises passes through with its own status and detail, and any other exception becomes HTTP 500 with its text. |
| FeedbackRouter.BadRequestIffOutOfRange | backend/api/routers/feedback.py:22-38 | The answer is HTTP 400 if and only if the rating is out of range or the service itself raised an `HTTPException` with status 400. A plain exception from the service never becomes 400. |
| FeedbackRouter.OutOfRangeIgnoresService | backend/api/routers/feedback.py:23-24 | An out-of-range rating is rejected before the service is consulted. |
| FeedbackRouter.ServiceSeesSubmittedFields | backend/api/routers/feedback.py:26-34 | The answer depends on the service only through its reply to exactly the submitted fields. |
| SchemesRag.ShouldUseRag | backend/ai/implementations/schemes_rag.py:100-115 | True iff the router's reply contains "RAG_NEEDED", and true when the call raised. |
| SchemesRag.CleanLine | backend/ai/implementations/schemes_rag.py:135 | Removing leading '-', ' ', '*' and '•' and then stripping gives a part of the line with no surrounding whitespace. |
| SchemesRag.QueryOf | backend/ai/implementations/schemes_rag.py:132-137 | A line yields at most one query. It is non-empty, has no whitespace at either end, and occurs in the line. |
| SchemesRag.ParsedQueriesFromLines | backend/ai/implementations/schemes_rag.py:131-137 | Every parsed query occurs in some line of the reply. |
| SchemesRag.DroppedLine | backend/ai/implementations/schemes_rag.py:133-136 | Blank lines, "Enhanced Queries:" lines and lines that clean to nothing add no query. |
| SchemesRag.WithOriginal | backend/ai/implementations/schemes_rag.py:140-141 | The original query is appended only if absent, so it is always present and the parsed queries stay in front. |
| SchemesRag.EnhancedQueries | backend/ai/implementations/schemes_rag.py:117-147 | Exactly [original] when the call raised. Otherwise the first min(4, n) of the parsed queries with the original appended when absent (n entries in all), in order. |
| SchemesRag.OriginalKeptWhenFew | backend/ai/implementations/schemes_rag.py:140-143 | With fewer than 4 parsed queries the original survives the cut. |
| SchemesRag.OriginalCutOff | backend/ai/implementations/schemes_rag.py:140-143 | With 4 or more parsed queries not including the original, the original is cut off by `[:4]`. |
| SchemesRag.EnhanceQuery | backend/ai/implementations/schemes_rag.py:117-147 | The parsing loop returns the queries described by `EnhancedQueries`. |
| SchemesRag.Key | backend/ai/implementations/schemes_rag.py:181 | The deduplication key is the first (at most) 100 characters of the content. |
| SchemesRag.Kept | backend/ai/implementations/schemes_rag.py:173-184 | The kept chunks have pairwise different keys. |
| SchemesRag.KeptCoversKeys | backend/ai/implementations/schemes_rag.py:178-184 | Every key retrieved is represented among the kept chunks. |
| SchemesRag.KeptAreFirst | backend/ai/implementations/schemes_rag.py:178-184 | Each kept chunk is the first retrieved chunk with its key: first occurrence wins. |
| SchemesRag.KeptPrefix | backend/ai/implementations/schemes_rag.py:175-184 | Later results never remove or reorder chunks already kept. |
| SchemesRag.Truncate | backend/ai/implementations/schemes_rag.py:189-190 | Contexts up to 4000 characters are unchanged. Longer ones become their first 4000 characters plus "...", so at most 4003. |
| SchemesRag.ContextChunks | backend/ai/implementations/schemes_rag.py:187 | At most 8 chunks are used: the first of the deduplicated ones. |
| SchemesRag.ContextOf | backend/ai/implementations/schemes_rag.py:169-192 | The context never exceeds 4003 characters. |
| SchemesRag.NoHitsNoContext | backend/ai/implementations/schemes_rag.py:172-192 | No retrieved chunks give the empty context. |
| SchemesRag.CollectContexts | backend/ai/implementations/schemes_rag.py:172-184 | The nested loop with its `seen_content` set renders exactly the first-occurrence chunks of all results, in retrieval order. |
| SchemesRag.KeepNew | backend/ai/implementations/schemes_rag.py:178-184 | The inner loop over one query's results extends the rendered list, the seen set and the kept chunks consistently. |
| SchemesRag.RetrieveContext | backend/ai/implementations/schemes_rag.py:169-196 | The method computes the context `ContextOf` describes. |
| SchemesRag.GetEnhancedContext | backend/ai/implementations/schemes_rag.py:198-234 | Routing "no" gives (False, ""). Otherwise the context of the enhanced queries is returned, and `needs_rag` is true iff it is non-empty. |
| ChatHistory.Trim | crop_recommendation.py:43-44 | Up to 10 entries are kept as they are. Longer histories keep their last 10. |
| ChatHistory.Add | crop_recommendation.py:41-44 | After adding, the history holds at most 10 entries and ends with the new one. It simply grows while below 10, and is full otherwise. |
| ChatHistory.AddKeepsLast | crop_recommendation.py:41-44 | Adding to the last 10 messages gives the last 10 of all messages plus the new one. |
| ChatHistory.AddAllIsLast | crop_recommendation.py:41-44 | Any run of adds leaves exactly the last 10 messages ever added, in order. |
| ChatHistory.ExchangeAtEnd | backend/ai/implementations/Schemes_chatbot.py:45-63 | After the question and the reply are added, they are the last two entries, in that order. |
| ChatHistory.ErrorReply | backend/ai/implementations/Schemes_chatbot.py:67-68 | The error answer is "❌ Error: " followed by the exception text. |
| ChatHistory.Request | backend/ai/implementations/Schemes_chatbot.py:45-49 | The request is the system prompt followed by the history with the user's message added (at most 11 messages), ending with that message. |
| SchemesChatbot.SchemesChatBot.constructor | backend/ai/implementations/Schemes_chatbot.py:10-31 | The history starts empty. |
| SchemesChatbot.SchemesChatBot.AddToHistory | backend/ai/implementations/Schemes_chatbot.py:33-39 | Appends {role, content} and keeps the last 10 entries. |
| SchemesChatbot.SchemesChatBot.GetResponse | backend/ai/implementations/Schemes_chatbot.py:41-68 | The user message is recorded before the call, and the call sees it. On success the reply is recorded and returned. On failure "❌ Error: …" is returned and the user entry stays without a reply. |
| SimpleCropChatbot.CropChatBot.constructor | backend/ai/implementations/Crop_recd/simple_crop_chatbot.py:18-43 | The history starts empty. |
| SimpleCropChatbot.CropChatBot.AddToHistory | backend/ai/implementations/Crop_recd/simple_crop_chatbot.py:45-51 | Appends {role, content} and keeps the last 10 entries. |
| SimpleCropChatbot.CropChatBot.GetResponse | backend/ai/implementations/Crop_recd/simple_crop_chatbot.py:53-81 | The user message is recorded before the call. On success the reply is appended and returned. On failure "❌ Error: …" is returned and no assistant entry is added. |
| SimpleCropChatbot.CropChatBot.Open | backend/ai/implementations/Crop_recd/simple_crop_chatbot.py:91-92 | The chat opens by sending "Let's begin." through the same path, so the history starts with that user entry. |
| WeatherCropBot.Lookup | backend/api/Wheather/crop_recommendation.py:166-170 | Reading keys in order succeeds iff all are present, giving their values in order. Otherwise it fails at the first missing key (`KeyError`). |
| WeatherCropBot.ModelInputRow | backend/api/Wheather/crop_recommendation.py:166-170 | The row is [N, P, K, temperature, humidity, pH, rainfall] iff all seven keys are present. Otherwise the error names a missing feature. |
| WeatherCropBot.ModelInput | backend/api/Wheather/crop_recommendation.py:166-170 | A row has one value per feature; a failure names a feature missing from the inputs. `ModelInputRow` gives the exact row. |
| WeatherCropBot.ClassifyIntent | backend/api/Wheather/crop_recommendation.py:107-175 | An exception escapes iff the classifier call raised (its text) or its JSON is not an object (`AttributeError` of `.get`). A reply that is not JSON becomes intent "general_query" with no location; an object is used as is. |
| WeatherCropBot.ClassifyContext | backend/api/Wheather/crop_recommendation.py:110 | The classification context mentions the remembered city, and is empty without one. |
| WeatherCropBot.Suitable | backend/api/Wheather/crop_recommendation.py:137 | The suitable crops are no more than the verdicts. |
| WeatherCropBot.SuitableExactly | backend/api/Wheather/crop_recommendation.py:137 | A crop is kept iff some verdict for it lowercases to "suitable". |
| WeatherCropBot.ValidateRecommendations | backend/api/Wheather/crop_recommendation.py:125-140 | Unparsable verdicts return the candidates unchanged. Otherwise exactly the crops judged suitable. |
| Ranking.Zip | backend/api/Wheather/crop_recommendation.py:208 | `zip(classes_, probabilities)` pairs the i-th class with the i-th probability, up to the shorter length. |
| Ranking.Insert | backend/api/Wheather/crop_recommendation.py:208 | Insertion adds exactly the new pair. |
| Ranking.SortDesc | backend/api/Wheather/crop_recommendation.py:208 | The sort is a permutation of its input. |
| Ranking.InsertOrdered | backend/api/Wheather/crop_recommendation.py:208 | Inserting a later pair into a sorted list keeps it sorted by probability descending, with ties in original order. |
| Ranking.SortOrdered | backend/api/Wheather/crop_recommendation.py:208 | The result is ordered by probability descending and is stable on ties. |
| Ranking.FirstNames | backend/api/Wheather/crop_recommendation.py:209 | `[crop for crop, prob in crop_probs[:3]]` gives the first min(n, 3) class names, in order. |
| Ranking.TopThree | backend/api/Wheather/crop_recommendation.py:207-209 | At most 3 candidates. |
| Ranking.TopThreeAreBest | backend/api/Wheather/crop_recommendation.py:207-209 | The candidates are the first min(n, 3) entries of a permutation of the pairs sorted stably by probability. Each of them comes before every pair left out. |
| WeatherCropBot.Respond | backend/api/Wheather/crop_recommendation.py:172-228 | A classifier failure escapes with the state unchanged; every other path answers. "greeting" gives the greeting, a recommendation request without a usable location asks for it, any other intent gives the "I'm here to help…" reply, all with the state unchanged. `conversation_state` is replaced only on a recommendation that reaches suitable crops, and then holds the model inputs and the classified city. |
| WeatherCropBot.RecommendationAnswer | backend/api/Wheather/crop_recommendation.py:193-220 | On the success path the answer is the report, or the generic error if the report call raised. The data source is "LLM Estimation" after a weather error and "API" otherwise. |
| WeatherCropBot.Recommend | backend/api/Wheather/crop_recommendation.py:181-224 | The `try` always answers. The state is replaced by details for the given city holding the estimated inputs exactly when every call succeeded and some crop was judged suitable, and is kept otherwise. `RecommendationAnswer` and the failure lemmas give each answer. |
| WeatherCropBot.EstimateFailures | backend/api/Wheather/crop_recommendation.py:188-207 | After a weather report: an estimate call that raises, or a missing feature key, gives the generic error; an estimate without a JSON object gives the "I'm sorry, I'm having trouble gathering…" reply. The state is kept on each. |
| WeatherCropBot.WeatherFailureGivesGenericError | backend/api/Wheather/crop_recommendation.py:188-224 | An exception from the weather call gives the generic error reply and keeps the state. |
| WeatherCropBot.AllRejectedGivesGenericError | backend/api/Wheather/crop_recommendation.py:142-224 | When every candidate is rejected, the report's `top_crops_list[0]` raises `IndexError`, so the answer is the generic error and the state is kept. |
| WeatherCropBot.RankingFailureGivesGenericError | backend/api/Wheather/crop_recommendation.py:203-224 | `predict_proba` or the agronomist call raising is caught: the generic error, with the state kept. |
| WeatherCropBot.UnreadableIntentIsGeneral | backend/api/Wheather/crop_recommendation.py:120-228 | A classifier reply that is not JSON ends in the fixed "I'm here to help…" reply. |
| WeatherCropBot.UnknownCityAsksAgain | backend/api/Wheather/crop_recommendation.py:182-184 | A location that lowercases to "unknown" makes the bot ask for the location. |
| WeatherCropBot.CropChatBot.constructor | backend/api/Wheather/crop_recommendation.py:36-56 | The conversation state starts empty. |
| WeatherCropBot.CropChatBot.GetResponse | backend/api/Wheather/crop_recommendation.py:172-228 | The answer (or the exception that escapes) and the new `conversation_state` are those `Respond` gives for the old state. |
| CropRecommendation.SpaceRun | crop_recommendation.py:47 | `\s+` matches the longest run of Python whitespace (`str.isspace`, including the separators 28-31). |
| CropRecommendation.CityRun | crop_recommendation.py:47 | `[A-Za-z ]+` matches the longest run of letters and spaces. |
| CropRecommendation.MatchAt | crop_recommendation.py:47 | A match at a position captures a non-empty group of letters and spaces. |
| CropRecommendation.MatchAtSound | crop_recommendation.py:47 | The captured group is the greedy one: "in", the longest whitespace run that still leaves a group, and then the longest group. |
| CropRecommendation.MatchAtComplete | crop_recommendation.py:47 | Whenever the pattern can match at a position, `MatchAt` finds a match there. |
| CropRecommendation.Search | crop_recommendation.py:47 | `re.search` returns the match at the leftmost position where the pattern matches, or none if it matches nowhere. |
| CropRecommendation.ParseCity | crop_recommendation.py:46-48 | Without a match the city is "Pune". Otherwise it is the stripped group: letters and spaces, with no space at either end. |
| CropRecommendation.CityFromLeftmostMatch | crop_recommendation.py:47-48 | The city is the stripped group of the leftmost match. |
| CropRecommendation.CityAfterWordEndingInIn | crop_recommendation.py:47-48 | "in" inside a longer word also matches: "plain lands" gives the city "lands". |
| CropRecommendation.UnitSeparatorIsSpace | crop_recommendation.py:47-48 | `\s` matches the unit separator (28-31 count as whitespace): "in\x1fDelhi" gives the city "Delhi". |
| CropRecommendation.SetDefault | crop_recommendation.py:75-78 | `setdefault` sets only a missing key to the default and changes nothing else. |
| CropRecommendation.SoilEstimate | crop_recommendation.py:53-79 | An unreadable reply gives exactly the four averages (avg_values 0, 1, 2, 5). A readable one keeps its values and gains the averages it lacks. A failed call propagates its exception. |
| CropRecommendation.EstimateSoilNutrients | crop_recommendation.py:53-79 | The `setdefault` sequence computes `SoilEstimate`. |
| CropRecommendation.Absent | crop_recommendation.py:85 | The keys missing from a dictionary, in declaration order. |
| CropRecommendation.Missing | crop_recommendation.py:83-85 | A key is reported iff it is a required soil key missing from the soil or a required weather key missing from the weather. |
| CropRecommendation.GetModelInput | crop_recommendation.py:81-95 | Succeeds iff all seven keys are present, giving the row [N, P, K, temperature, humidity, pH, rainfall]. Otherwise `ValueError` lists the missing keys, soil first. |
| CropRecommendation.NothingButRainfall | crop_recommendation.py:83-87 | With all soil keys and only rainfall absent, exactly "rainfall" is reported. |
| CropRecommendation.WeatherUsed | crop_recommendation.py:115-117 | A weather result with "error" is replaced by exactly temperature 25.62, humidity 71.48 and rainfall 103.46 (`avg_values` 3, 4, 6). A successful result is used as is. |
| CropRecommendation.Outcome | crop_recommendation.py:112-126 | The first failure wins, in order: the soil call raising, a missing model input, the report call raising. Each answers "❌ Error: " with its text and leaves the history unchanged. When all succeed, the answer is the report and the question and the report are added to the history. |
| CropRecommendation.WeatherErrorStillAnswers | crop_recommendation.py:115-124 | With the weather lookup failing, the averages complete the row, so the report is returned and the exchange recorded. |
| CropRecommendation.LiveWeatherLacksRainfall | crop_recommendation.py:115-126 | A successful lookup never carries "rainfall", so the turn ends in "❌ Error: Missing required input(s) for model: rainfall" with the history unchanged. |
| CropRecommendation.OnlyRainfallMissing | crop_recommendation.py:83-87 | With complete soil and a live weather result, the error names rainfall alone. |
| CropRecommendation.CropChatBot.constructor | crop_recommendation.py:23-39 | The history starts empty. |
| CropRecommendation.CropChatBot.AddToHistory | crop_recommendation.py:41-44 | Appends {role, content} and keeps the last 10 entries. |
| CropRecommendation.CropChatBot.GetResponse | crop_recommendation.py:112-126 | The answer and the new history are those `Outcome` gives for the old history: an error text with the history kept, or the report with the exchange recorded. |
| Subsidies.FilteredSchemes | frontend/src/components/sections/Subsidies.tsx:262-268 | A scheme is shown iff the term occurs, ignoring case, in its name or description and the category and status filters match ("all" selects all). The catalogue order is kept. |
| Subsidies.FilteredSchemesInOrder | frontend/src/components/sections/Subsidies.tsx:262-268 | The filter keeps catalogue order and each scheme once: filtering a + [x] + b gives the shown schemes of a, then x if it matches, then those of b. |
| Subsidies.EmptySearchShowsAll | frontend/src/components/sections/Subsidies.tsx:263-266 | An empty search with both filters on "all" shows every scheme. |
| Subsidies.LongerTermNarrows | frontend/src/components/sections/Subsidies.tsx:263-264 | A scheme matching a longer term also matches every part of it. |
| Subsidies.DigitRun | frontend/src/components/sections/Subsidies.tsx:271 | `parseInt` reads the longest run of digits of the radix. |
| Subsidies.DecimalValue | frontend/src/components/sections/Subsidies.tsx:271 | Decimal digits read back to the number they spell. |
| Subsidies.ParseDecimal | frontend/src/components/sections/Subsidies.tsx:271 | `parseInt` of a number's decimal digits followed by a non-digit gives that number. |
| Subsidies.ParseInt | frontend/src/components/sections/Subsidies.tsx:271 | A negative result only comes from a leading '-' after the skipped whitespace. A string starting with 1-9 always parses to a non-negative number. `ParseDecimal` gives the exact value. |
| Subsidies.WithoutSymbols | frontend/src/components/sections/Subsidies.tsx:271 | `replace(/[₹,]/g, '')` removes every '₹' and ','. |
| Subsidies.CalculateBenefit | frontend/src/components/sections/Subsidies.tsx:270-274 | The benefit is min(amount·percent/100, cap). It never exceeds the cap or the share, and it is NaN exactly when the cap does not parse. |
| Subsidies.SeedSchemeCapped | frontend/src/components/sections/Subsidies.tsx:270-274 | The seed scheme (85%, ₹5,000) on ₹20,000 pays the ₹5,000 cap. |
| Subsidies.BudgetAmount | frontend/src/components/sections/Subsidies.tsx:358 | `parseInt(budget) \|\| 0`: a budget that does not parse counts as 0. |
| Subsidies.CalculatorRows | frontend/src/components/sections/Subsidies.tsx:354-358 | Rows appear iff the budget is non-empty and some scheme is shown. There are at most the first 3 shown schemes, each with its benefit. |
| Subsidies.EligibilityShown | frontend/src/components/sections/Subsidies.tsx:468-477 | The first (at most) 2 criteria are listed, plus "+n more" with n = length − 2 exactly when there are more than 2. |
| Subsidies.ApplyButton | frontend/src/components/sections/Subsidies.tsx:487-493 | The button is disabled, and reads "Coming Soon", iff the status is "upcoming". Otherwise it reads "Apply Now". |
| Subsidies.DaysLeft | frontend/src/components/sections/Subsidies.tsx:253-260 | A scheme without a deadline has no days-left value. |
| Subsidies.DeadlineText | frontend/src/components/sections/Subsidies.tsx:452 | "n days left" iff the days-left value is positive. Otherwise "Deadline passed". |
| PyText.Lower | backend/api/routers/schemes.py:52 | `lower()` keeps the length and lowers each character. |
| PyText.Strip | backend/ai/implementations/schemes_rag.py:132 | `strip()` leaves no Python whitespace (`str.isspace`, including the separators 28-31 and the Unicode spaces) at either end. |
| PyText.StripContains | backend/ai/implementations/schemes_rag.py:110-111 | Stripping does not change whether a word without surrounding spaces occurs, so the router may test the stripped reply. |
| PyText.Split | backend/ai/implementations/schemes_rag.py:131 | `split('\n')` gives at least one piece, none containing the separator, and joining them gives the text back. |
| PyText.Slice | backend/api/routers/schemes.py:129 | A Python slice clamps both bounds (negative ones from the end) and is empty when they cross. |
| PyText.Take | backend/ai/implementations/schemes_rag.py:143 | `s[:n]` is the first n elements, or everything but the last −n for negative n. |
| PyText.FloorDiv | backend/api/routers/schemes.py:136 | Python's `//` rounds toward negative infinity. |
| PyText.Filter | backend/api/routers/schemes.py:124 | A comprehension with a condition keeps exactly the elements that satisfy it, in order. |
| PyText.FilterAppend | backend/api/routers/schemes.py:124 | Filtering distributes over concatenation. |
| PyText.FilterNonEmpty | frontend/src/components/sections/Subsidies.tsx:354 | A filtered list is non-empty iff some element satisfies the condition. |
| PyText.Map | backend/ai/implementations/schemes_rag.py:183 | A comprehension maps each element, keeping length and order. |

## Left out

- Lower-casing is modelled on ASCII letters only; Python's `str.lower` and JavaScript's `toLowerCase` are Unicode-aware. Whitespace is Python's `str.isspace` set for `strip()` and `\s`, and ECMAScript's WhiteSpace and LineTerminator set for `parseInt`.
- Floating point is modelled as exact `real`. The averages of `_aggregate_daily_forecast` are built but not reasoned about. The "[Score: x.xxx]" prefix of a retrieved chunk is rendered abstractly.
- The language models, the Deepgram SDK, the weather HTTP API, the vector database and the pickled model are parameters: each appears only as the answer it gave or the exception it raised. Prompt texts and the system prompts' wording are not part of this model.
- `_setup_connection`, `_setup_event_handlers`' registration code, threads, asyncio scheduling, PyAudio streaming and `time.sleep` are left out. Each callback and each keep-alive wake is one sequential step.
- FeedbackRouter.SubmitFeedback: `create_feedback` and the `FeedbackResponse(**result)` conversion are one step. A result that fails validation counts as the service raising a plain exception, which the endpoint turns into HTTP 500. The database write itself is not part of this model.
- `datetime.fromtimestamp` and `calculateDaysLeft`'s Date arithmetic are left out. A forecast item carries its calendar date, and the days until a deadline come in as a function.
- The dictionary merges that build `details` in the backend crop bot, and JSON values that are not numbers (or, for the classified location, not strings), are left out. The inputs of the model row are a map from feature name to number.
- AgriWeather.LocationParams: the request and the response formatting around it (`_make_request`, `_format_current_weather`) are left out, as is the weekly outlook.
- SchemesRouter.GetAllSchemes: the sample scheme list is a parameter (the service passes `SampleSchemes`); the `state` and `crop_type` query parameters are accepted by the route and ignored, as in the code.
- SchemesRag.ContextOf: the 4003-character bound and the chunk cap are stated; the exact joined text with "\n\n" is computed by the function but not restated in its contract.
- WeatherCropBot.Respond: the report text of `llm_enhance` and the fallback estimates are parameters, so the contracts (of `Respond` and the lemmas beside it) state the fixed replies, the escaping exceptions and the state update, not the report contents.
- Subsidies.DaysLeft: the ceiling of a millisecond difference is not modelled; `daysUntil` stands for it.
- The command-line loops (`start_chat`, `main`) and the frontend rendering, toasts and translation tables are not part of this model.
