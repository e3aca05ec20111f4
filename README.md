# CheeU retrieval and healing-capsule core, in Dafny

CheeU answers a user's message with a "healing capsule". The capsule's message
is written by a language model from research excerpts that a vector store
retrieves. This project models the logic that sits around those two external
services, in both versions of the code:

- the **current package** (`backend/chatbot/code/`): vector store wrapper,
  chatbot, production pipeline and API functions;
- the **first version** (`cheeu_vectordb.py`, `cheeu_chatbot.py`,
  `backend/chatbot/cheeu_rag_pipeline.py`).

What is modelled:

- **Priority-weighted fusion** (`VectorDb`, `LegacyVectorDb`, `Fusion`).
  - Main-query hits and sub-query hits are merged in an insertion-ordered dictionary keyed by the first 100 characters of a document.
  - Entries are ranked by a stable descending sort and cut to `k`.
  - The current version adds a search cache of at most 100 entries, per-sub-query error isolation and a fallback to plain search.
  - Each loop is a `method` proved against a recursive specification function, and the ranking is proved sorted, a permutation, and complete.
- **The search-confidence heuristic** in both versions, with its bounds (`VectorDb.Confidence`, `LegacyVectorDb.LegacyConfidence`).
- **Stress-type classification**, age groups, the profile and occupation tables, and the capsule's dictionary form (`StressTypes`, `Models`).
- **The chatbot** (`Chatbot`, `LegacyChatbot`).
  - Main and sub-query assembly, blank filtering, context formatting with the 500-character cut.
  - The fallback and error capsules, the bounded retry loop, and the whole `generate_healing_message` as a function of the store, the cache and the model's replies.
- **The pipelines and the API** (`Pipeline`, `LegacyPipeline`, `Api`).
  - Input validation and the batch loops, with one entry per request.
  - The process-wide pipeline singleton.
  - The stress-type information lookup, the simple profile helper, and the batch counts.

How the external services are represented:

- **Vector store.** A function `Store` from a query and a candidate count to its hits, or to a raised error.
- **Language model.** The outcome of each attempt, `Llm = nat -> LlmOutcome`.
- **Clock and `hash(str(sub_queries))`.** Parameters.
- **`create_pipeline`.** The singleton receives its outcome as a parameter.

Scores are `real`.

## Model

| member | source | states |
|---|---|---|
| StressTypes.AllStressTypesComplete | backend/chatbot/code/models.py:13-22 | every stress type occurs in the enum's iteration order |
| StressTypes.AllStressTypesDistinct | backend/chatbot/code/models.py:13-22 | no member is listed twice, so with AllStressTypesComplete iterating the enum yields each of the eight members exactly once |
| StressTypes.ValuesAndNamesDistinct | backend/chatbot/code/models.py:13-22 | distinct types have distinct values and distinct names |
| StressTypes.SurveyCode | backend/chatbot/code/pipeline.py:304-307 | the code has three characters, each O or X, and position i is O exactly when flag i is set; the first version does the same at backend/chatbot/cheeu_rag_pipeline.py:194-197 |
| StressTypes.CodeTableInvertsName | backend/chatbot/code/pipeline.py:309-318 | the mapping sends each type's name to that type, and no other string to it |
| StressTypes.Classify | backend/chatbot/code/pipeline.py:298-327 | the chosen type's enum name is the survey code |
| StressTypes.EveryCodeIsMapped | backend/chatbot/code/pipeline.py:309-320 | every code of three flags is a key, so the XXX default is never taken; the first version does the same at backend/chatbot/cheeu_rag_pipeline.py:199-210 |
| StressTypes.ClassifyRoundTrip | backend/chatbot/code/pipeline.py:298-323 | reading the flags off a type and classifying them gives the type back; classifying flags gives a type with those flags; the first version does the same at backend/chatbot/cheeu_rag_pipeline.py:189-210 |
| StressTypes.ClassifyInjective | backend/chatbot/code/pipeline.py:298-323 | different flag triples never give the same type |
| Models.MethodNames | backend/chatbot/code/chatbot.py:221 | one Korean method name per therapy method, in the profile's order |
| Models.ProfilesCoverEveryType | backend/chatbot/code/models.py:159-192 | every stress type has a profile with one to three therapy methods and a non-empty emoji |
| Models.OccupationListsNonEmpty | backend/chatbot/code/models.py:195-229 | no occupation maps to an empty keyword list |
| Models.OccupationKeywordsIffKnown | backend/chatbot/code/pipeline.py:184-186 | an occupation gets keywords exactly when it is a table key; an unknown one gets []; the API's get_occupation_keywords (api.py:237-240) is the same lookup |
| Models.AgeBand | backend/chatbot/code/models.py:66-79 | six buckets: under 20, one per decade from 20 to 59, 60 and over |
| Models.AgeBandMonotone | backend/chatbot/code/models.py:66-79 | an older age never falls in a younger bucket |
| Models.AgeGroupLabelsDistinct | backend/chatbot/code/models.py:66-79 | the six labels differ, so the label identifies the bucket |
| Models.ToDictRoundTrip | backend/chatbot/code/models.py:97-111 | to_dict has exactly the eleven field names, and reading it back gives the capsule |
| Models.FromDictRecoversDict | backend/chatbot/code/models.py:97-111 | the other direction: a dictionary with exactly the eleven keys that reads back as a capsule is that capsule's to_dict |
| Fusion.DocKey | backend/chatbot/code/vectordb.py:205 | the key is a prefix of the content of at most 100 characters, the whole content when it is short |
| Fusion.DocsOf | backend/chatbot/code/vectordb.py:123 | one document per hit, in order |
| Fusion.Put | backend/chatbot/code/vectordb.py:207-212 | a new key is appended to the dict order; an existing key is overwritten in place, and the order is unchanged |
| Fusion.Candidates | backend/chatbot/code/vectordb.py:232-236 | the dict's values in insertion order, each tagged with its position |
| Fusion.InsertByScore | backend/chatbot/code/vectordb.py:232-236 | insertion adds exactly the new candidate |
| Fusion.SortByScore | backend/chatbot/code/vectordb.py:232-236 | the sort is a permutation of its input |
| Fusion.SortRanked | backend/chatbot/code/vectordb.py:232-236 | the sorted order is by non-increasing score, with insertion order among equal scores (Python's stable reverse sort) |
| Fusion.TopSpec | backend/chatbot/code/vectordb.py:232-236 | `[:k]` keeps min(k, n) distinct candidates in ranked order, and each kept one precedes every dropped one |
| Fusion.RankedDocsLinks | backend/chatbot/code/vectordb.py:232-238 | each returned document is the document of the kept candidate at its dict position |
| Fusion.RankedDocsOrdered | backend/chatbot/code/vectordb.py:232-238 | returned documents come from distinct entries, in non-increasing score, with ties in dict order |
| Fusion.RankedDocsComplete | backend/chatbot/code/vectordb.py:232-238 | every entry left out is outranked by each returned one: it scores lower, or ties and comes later in the dict, so `[:k]` keeps the earlier of tied entries |
| Fusion.OldKeysFirst | backend/chatbot/code/vectordb.py:204-229 | when the dict only grew by appending keys, every earlier key precedes every key added later |
| Fusion.OldKeyWinsTie | backend/chatbot/code/vectordb.py:232-238 | a later-added key that ties with an earlier key is returned only after that key |
| Fusion.RankedDocsSpec | backend/chatbot/code/vectordb.py:232-238 | min(k, n) documents, distinct keys, sorted by score with stable ties, every entry left out outranked by each one kept; the first version does the same at cheeu_vectordb.py:175-181 |
| VectorDb.Similarity | backend/chatbot/code/vectordb.py:206 | max(0, 1 - distance): never negative, at least 1 - distance, and at most 1 for a non-negative distance |
| VectorDb.MainPassEntries | backend/chatbot/code/vectordb.py:204-212 | after the main loop a key holds the entry of its last main hit: similarity x main weight, main score = similarity, sub score 0; a later hit replaces, it does not add |
| VectorDb.SubStepKeepsWellFormed | backend/chatbot/code/vectordb.py:216-229 | one sub-hit step keeps the dict well formed with every value under its own document's key |
| VectorDb.SubPassKeepsWellFormed | backend/chatbot/code/vectordb.py:215-229 | so does the whole sub-hit loop |
| VectorDb.MainPassInvariants | backend/chatbot/code/vectordb.py:204-212 | after the main loop every entry's score is its main score x main weight plus its sub score, and its main and sub scores are non-negative |
| VectorDb.SubPassInvariants | backend/chatbot/code/vectordb.py:215-229 | the sub-hit loop keeps that decomposition of every score, and keeps the parts non-negative when the per-query weight is |
| VectorDb.SubPassEntries | backend/chatbot/code/vectordb.py:215-229 | an existing entry gains the weighted sub similarities on score and sub score, and keeps its document and main score; a new key gets its first sub hit's document, main score 0 and that sum |
| VectorDb.FusedEntry | backend/chatbot/code/vectordb.py:201-229 | a key is in the fused dict exactly when some main or sub hit has it; main score from the last main hit, sub score the weighted sum |
| VectorDb.FusedScoreDecomposes | backend/chatbot/code/vectordb.py:204-229 | every fused score is main similarity x main weight + sub score |
| VectorDb.FusedScoresNonNegative | backend/chatbot/code/vectordb.py:204-229 | with non-negative weights no fused score is negative |
| VectorDb.GatherConcat | backend/chatbot/code/vectordb.py:187-198 | sub-query hits are gathered sub-query by sub-query, in order |
| VectorDb.GatherOne | backend/chatbot/code/vectordb.py:189-198 | a blank or missing sub-query is never searched; a search that raises contributes nothing and does not abort |
| VectorDb.NonBlankCount | backend/chatbot/code/vectordb.py:215 | the count of non-blank sub-queries is at most their number, and the count raises exactly when an entry is None |
| VectorDb.CollectSubHits | backend/chatbot/code/vectordb.py:187-198 | the sub-query loop yields the gathered hits |
| VectorDb.ScoreMainHits | backend/chatbot/code/vectordb.py:201-212 | the main-hit loop builds the main pass's dict |
| VectorDb.AddSubHits | backend/chatbot/code/vectordb.py:214-229 | the sub-hit loop builds the sub pass's dict |
| VectorDb.PriorityWeightedFusion | backend/chatbot/code/vectordb.py:183-238 | the try block yields the fusion's result, or the signal to fall back |
| VectorDb.PriorityFusionSpec | backend/chatbot/code/vectordb.py:183-253 | it falls back exactly when the main search raises or a sub-query is None; otherwise at most k documents, distinct keys, non-increasing fused score with ties in first-seen order, and every entry left out outranked by each returned one (a lower score, or a tie and later in the dict) |
| VectorDb.SubPassKeepsOrder | backend/chatbot/code/vectordb.py:215-229 | the sub-hit loop only appends keys: the dict's order before it is a prefix of the order after |
| VectorDb.MainHitsFirst | backend/chatbot/code/vectordb.py:204-229 | in the fused dict, every key a main hit wrote precedes every key only a sub hit added |
| VectorDb.MainHitWinsTie | backend/chatbot/code/vectordb.py:204-238 | a sub-only document whose fused score ties with a main-hit document is returned only after it |
| VectorDb.PriorityFusion | backend/chatbot/code/vectordb.py:183-238 | the try block of search_with_priority_weighting, None for an exception; PriorityFusionSpec states when it falls back and what it ranks |
| VectorDb.CloserDocumentRanksFirst | backend/chatbot/code/vectordb.py:204-238 | of two hits at distances 0.9 and 0.1, k = 1 returns the closer one |
| VectorDb.KeywordHits | backend/chatbot/code/vectordb.py:279-283 | the matched keywords never outnumber the keywords |
| VectorDb.KeywordRatioBounds | backend/chatbot/code/vectordb.py:272-284 | the keyword ratio lies in [0, 1], and is 0 with no keywords |
| VectorDb.DocScoreBounds | backend/chatbot/code/vectordb.py:272-307 | each document's four-part score lies in [0, 1] |
| VectorDb.DocScore | backend/chatbot/code/vectordb.py:272-307 | one document's keyword, length, metadata and richness score; DocScoreBounds bounds it |
| VectorDb.TotalScoreBounds | backend/chatbot/code/vectordb.py:274-309 | the summed document scores lie between 0 and the number of documents |
| VectorDb.ConfidenceBounds | backend/chatbot/code/vectordb.py:267-315 | the confidence lies in [0, 1]; it is 0 exactly for an empty document list |
| VectorDb.Confidence | backend/chatbot/code/vectordb.py:255-319 | calculate_search_confidence; ConfidenceBounds and KeywordsNeverLowerConfidence state its range and monotonicity |
| VectorDb.KeywordsNeverLowerConfidence | backend/chatbot/code/vectordb.py:272-315 | supplying keywords never lowers the confidence |
| VectorDb.CalculateSearchConfidence | backend/chatbot/code/vectordb.py:255-319 | the accumulating loop computes the confidence function |
| VectorDb.SearchesKeepCacheBounded | backend/chatbot/code/vectordb.py:118-127 | a basic or priority search never grows the cache past 100, never drops or rewrites an entry, and adds at most one |
| VectorDb.Remember | backend/chatbot/code/vectordb.py:126-127 | a result is stored only while the cache holds fewer than 100 entries; SearchesKeepCacheBounded and FullCacheIsReadOnly state the consequences |
| VectorDb.BasicSearch | backend/chatbot/code/vectordb.py:105-134 | search_basic on a cache state: a cached list as stored, otherwise the store's documents or [] when it raises; SearchesKeepCacheBounded bounds the cache |
| VectorDb.PrioritySearch | backend/chatbot/code/vectordb.py:156-253 | search_with_priority_weighting on a cache state, with the fallback to search_basic; CacheHitIgnoresStoreAndWeights and SearchesKeepCacheBounded state its cache behaviour |
| VectorDb.CacheHitIgnoresStoreAndWeights | backend/chatbot/code/vectordb.py:176-180 | a cache hit returns the stored list unchanged, whatever the store and the weights |
| VectorDb.FullCacheIsReadOnly | backend/chatbot/code/vectordb.py:240-242 | a search on a full cache leaves it unchanged |
| VectorDb.Batches | backend/chatbot/code/vectordb.py:331-332 | each batch has between 1 and batch_size documents; a negative size gives no batches |
| VectorDb.BatchesConcat | backend/chatbot/code/vectordb.py:331-333 | the batches are the documents cut into consecutive pieces, in order |
| VectorDb.CheeUVectorDB.constructor | backend/chatbot/code/vectordb.py:76-77 | the cache starts empty |
| VectorDb.CheeUVectorDB.SearchBasic | backend/chatbot/code/vectordb.py:105-134 | search_basic's result and new cache are the cache-aware basic search |
| VectorDb.CheeUVectorDB.SearchWithPriorityWeighting | backend/chatbot/code/vectordb.py:156-253 | the result and new cache are the cache-aware priority search, with its fallback |
| VectorDb.CheeUVectorDB.AddDocuments | backend/chatbot/code/vectordb.py:321-342 | the batches go to the store in order; the cache is cleared only when every batch went in |
| VectorDb.CheeUVectorDB.ClearCache | backend/chatbot/code/vectordb.py:412-414 | the cache is empty afterwards and the store unchanged |
| LegacyVectorDb.LegacySearchBasic | cheeu_vectordb.py:78-95 | the store's documents, one per hit in the store's order, or [] when it raises |
| LegacyVectorDb.LegacyMainPass | cheeu_vectordb.py:154-160 | the main loop keeps the dict well formed |
| LegacyVectorDb.LegacySubStepKeepsWellFormed | cheeu_vectordb.py:163-172 | one sub-hit step keeps the dict well formed |
| LegacyVectorDb.LegacySubPassKeepsWellFormed | cheeu_vectordb.py:163-172 | so does the whole sub-hit loop |
| LegacyVectorDb.LegacyGather | cheeu_vectordb.py:141-148 | the sub-query loop raises exactly when some sub-query is None or a non-blank one's search raises |
| LegacyVectorDb.LegacyCollectSubHits | cheeu_vectordb.py:141-148 | the sub-query loop yields the gathered hits or the raise |
| LegacyVectorDb.LegacyScoreMainHits | cheeu_vectordb.py:153-160 | the main-hit loop builds the main pass's dict |
| LegacyVectorDb.LegacyAddSubHits | cheeu_vectordb.py:162-172 | the sub-hit loop builds the sub pass's dict |
| LegacyVectorDb.LegacySearchWithPriorityWeighting | cheeu_vectordb.py:116-189 | the first version's fusion, or search_basic when anything in it raised |
| LegacyVectorDb.LegacyMainPassEntries | cheeu_vectordb.py:154-160 | a key holds its last main hit's entry: raw score x main weight, main score = raw score |
| LegacyVectorDb.LegacySubPassEntries | cheeu_vectordb.py:163-172 | after the sub loop an existing entry keeps its document and main score and its score grows by the sum of its sub hits' raw distances x sub_weight / len(sub_queries); a key first met there holds its first sub hit's document, main score 1.0 and that sum as score |
| LegacyVectorDb.LegacyFusionSpec | cheeu_vectordb.py:116-189 | it falls back exactly when the main search raises or some sub-query raises; otherwise min(k, n) documents, each the entry under its own 100-character key, with distinct keys, in non-increasing fused score with ties in first-seen order, and every entry left out outranked by each returned one |
| LegacyVectorDb.LegacySubPassKeepsOrder | cheeu_vectordb.py:163-172 | the first version's sub-hit loop only appends keys |
| LegacyVectorDb.LegacyMainHitsFirst | cheeu_vectordb.py:154-172 | every key a main hit wrote precedes every key only a sub hit added |
| LegacyVectorDb.LegacyMainHitWinsTie | cheeu_vectordb.py:154-181 | a sub-only document tied with a main-hit document is returned only after it |
| LegacyVectorDb.LegacyFusion | cheeu_vectordb.py:134-184 | the first version's try block, None for an exception; LegacyFusionSpec states when it falls back and what it ranks |
| LegacyVectorDb.LegacyPrioritySearch | cheeu_vectordb.py:116-189 | the fusion, or search_basic on the main query when it raised; LegacySearchWithPriorityWeighting is proved equal to it |
| LegacyVectorDb.LegacyTwoHitTable | cheeu_vectordb.py:154-160 | hits at distances 0.9 and 0.1 get scores 0.63 and 0.07 |
| LegacyVectorDb.LegacyTwoHitRanking | cheeu_vectordb.py:175-181 | of those two entries, ranking with k = 1 keeps the 0.9 one |
| LegacyVectorDb.FartherDocumentRanksFirst | cheeu_vectordb.py:154-181 | of two hits at distances 0.9 and 0.1, k = 1 returns the farther one |
| LegacyVectorDb.LegacyMatches | cheeu_vectordb.py:213-215 | the matched keywords never outnumber the keywords |
| LegacyVectorDb.LengthPointsSum | cheeu_vectordb.py:218-222 | the summed length points are never negative |
| LegacyVectorDb.AllMatches | cheeu_vectordb.py:209-215 | the matches over all documents are at most documents x keywords |
| LegacyVectorDb.LegacyCalculateSearchConfidence | cheeu_vectordb.py:191-233 | the accumulating loop computes the first version's confidence |
| LegacyVectorDb.LegacyConfidenceBounds | cheeu_vectordb.py:203-233 | the first version's confidence lies in [0, 1], and it is 0 exactly when the document list is empty (a non-empty list always earns the count bonus) |
| LegacyVectorDb.LegacyConfidence | cheeu_vectordb.py:191-233 | the first version's calculate_search_confidence; LegacyConfidenceBounds and LegacyConfidenceSaturates state its range and saturation |
| LegacyVectorDb.LegacyConfidenceSaturates | cheeu_vectordb.py:209-233 | four documents of 100 to 1000 characters already give confidence 1, whatever the keywords |
| LegacyVectorDb.EmptyKeywordMatches | cheeu_vectordb.py:213-214 | an empty keyword matches every document here, while the current version skips it |
| Chatbot.MainQuery | backend/chatbot/code/chatbot.py:136 | the query opens with the stripped input and continues with one space and the stress type's value |
| Chatbot.MainQueryOfValidInput | backend/chatbot/code/chatbot.py:129-136 | for an input that passed the blank check, the input part of the query is non-empty, has no whitespace at either end, and is followed by the space |
| Chatbot.OccupationPart | backend/chatbot/code/chatbot.py:145-147 | at most the first three occupation keywords; none for an unknown occupation |
| Chatbot.SubQueries | backend/chatbot/code/chatbot.py:137-156 | the four profile entries, the occupation keywords, then the persona keywords; SubQueriesShape states its length and fixed entries |
| Chatbot.CategoryPart | backend/chatbot/code/chatbot.py:154-156 | at most two keywords per persona category |
| Chatbot.PersonaPart | backend/chatbot/code/chatbot.py:150-156 | at most six persona keywords |
| Chatbot.AppendPersonaKeywords | backend/chatbot/code/chatbot.py:154-156 | the category loop appends the first two keywords of each category present |
| Chatbot.AssembleSubQueries | backend/chatbot/code/chatbot.py:137-156 | the extend-by-extend assembly yields the specified sub-query list |
| Chatbot.SubQueriesShape | backend/chatbot/code/chatbot.py:137-156 | 4 to 13 entries: age group, gender, occupation, joined keywords, then up to 3 occupation keywords, then persona keywords only for a known persona |
| Chatbot.PersonaPartOfKnownPersona | backend/chatbot/code/chatbot.py:150-156 | the one known persona contributes two stress, two lifestyle and two therapy keywords |
| Chatbot.FilterBlank | backend/chatbot/code/chatbot.py:159 | filtering never lengthens the list |
| Chatbot.FilterBlankClean | backend/chatbot/code/chatbot.py:159 | every kept sub-query is stripped and non-empty; nothing is kept exactly when every entry was blank |
| Chatbot.FilterBlankConcat | backend/chatbot/code/chatbot.py:159 | the filter works entry by entry, so kept entries keep their relative order |
| Chatbot.AsSearchQueries | backend/chatbot/code/chatbot.py:163-167 | every filtered sub-query reaches the search as a string, never None |
| Chatbot.Truncate | backend/chatbot/code/chatbot.py:245-247 | content over 500 characters becomes its first 500 plus "..."; shorter content is kept |
| Chatbot.ContextParts | backend/chatbot/code/chatbot.py:240-250 | one entry per document, in order, the i-th with default source 연구자료{i+1} |
| Chatbot.FormatVectorContext | backend/chatbot/code/chatbot.py:236-252 | the fixed no-context text for no documents, otherwise the entries joined by blank lines; FormatVectorContextSnoc states how one more document extends it |
| Chatbot.FormatVectorContextSnoc | backend/chatbot/code/chatbot.py:236-252 | the context is the entries joined by blank lines |
| Chatbot.ContextPartShape | backend/chatbot/code/chatbot.py:241-249 | each entry starts with "[source] " and carries at most 503 characters of content |
| Chatbot.Sources | backend/chatbot/code/chatbot.py:222 | one source per retrieved document, 'Unknown' without a filename |
| Chatbot.FallbackCapsuleCovers | backend/chatbot/code/chatbot.py:254-288 | the fallback capsule is a success with the type's own message and methods, no sources, confidence 0.3 |
| Chatbot.FallbackCapsule | backend/chatbot/code/chatbot.py:254-288 | _generate_fallback_capsule; FallbackCapsuleCovers shows the unknown-type branch is never taken and states the capsule's fields |
| Chatbot.RetryFromSpec | backend/chatbot/code/chatbot.py:191-208 | the loop succeeds exactly when an attempt below max_retries answers, with the first answer; otherwise the last attempt's exception or the empty-response error |
| Chatbot.RetryFrom | backend/chatbot/code/chatbot.py:189-208 | the retry loop from a given attempt on; RetryFromSpec states when it succeeds, with which reply, and which error it ends with |
| Chatbot.Retry | backend/chatbot/code/chatbot.py:189-208 | the retry loop from the first attempt; CallWithRetries is proved equal to it |
| Chatbot.CallWithRetries | backend/chatbot/code/chatbot.py:191-208 | at most max_retries predict calls, stopping at the first non-blank reply, and the result is the retry function's |
| Chatbot.ErrorCapsule | backend/chatbot/code/chatbot.py:290-304 | the error capsule is a failure and a fallback, with confidence 0, no sources and the error message kept |
| Chatbot.SuccessCapsule | backend/chatbot/code/chatbot.py:210-230 | the success capsule is no fallback and has no error, one source per document, confidence in [0, 1], and a non-empty message exactly when the reply is not blank |
| Chatbot.GenerateValidates | backend/chatbot/code/chatbot.py:127-133 | a blank input, or a missing profile or nickname, gives the error capsule with its message and leaves the cache as it was |
| Chatbot.GenerateCapsuleShape | backend/chatbot/code/chatbot.py:127-234 | confidence lies in [0, 1]; a failure is always an error capsule with confidence 0; a fallback success has confidence 0.3 and no sources; any other success has a non-empty message and no error |
| Chatbot.GenerateKeepsCacheBounded | backend/chatbot/code/chatbot.py:127-234 | a call never grows the search cache past 100 entries |
| Chatbot.GenerateOutcomes | backend/chatbot/code/chatbot.py:127-234 | the three properties above for every call |
| Chatbot.GenerateBranches | backend/chatbot/code/chatbot.py:169-230 | empty retrieval gives the fallback capsule; a failed retry gives the error capsule; otherwise the success capsule with one source per document |
| Chatbot.Generate | backend/chatbot/code/chatbot.py:127-234 | generate_healing_message as a function of the cache, the store and the model's outcomes; GenerateValidates, GenerateCapsuleShape, GenerateKeepsCacheBounded and GenerateBranches state what it returns |
| Chatbot.Answer | backend/chatbot/code/chatbot.py:173-230 | the capsule after the search: fallback for no documents, otherwise the retry loop's error or success capsule; GenerateBranches and GenerateCapsuleShape state its cases |
| Chatbot.CheeUChatbot.GenerateHealingMessage | backend/chatbot/code/chatbot.py:113-234 | the capsule and the new cache are those of the generation function |
| LegacyChatbot.LegacyAgeGroupBuckets | cheeu_chatbot.py:79-92 | each age falls in exactly the bucket its decade names, 60 and over in "60대 이상" |
| LegacyChatbot.LegacyProfilesCoverEveryType | cheeu_chatbot.py:156-189 | every type has a profile with one or two of MBSR, PPT and ACT, so the fallback lookup never misses |
| LegacyChatbot.LegacyOccupationListsNonEmpty | cheeu_chatbot.py:192-244 | no occupation maps to an empty list |
| LegacyChatbot.LegacyOccupationKeywordsIffKnown | backend/chatbot/cheeu_rag_pipeline.py:128-130 | an occupation gets keywords exactly when it is a table key; an unknown one gets [] |
| LegacyChatbot.LegacyMainQuery | cheeu_chatbot.py:336 | the unstripped input, a space, then the stress value |
| LegacyChatbot.LegacyAssembleSubQueries | cheeu_chatbot.py:337-346 | the extend-based assembly yields the specified list |
| LegacyChatbot.LegacySubQueriesShape | cheeu_chatbot.py:337-346 | 4 to 7 entries: four profile entries, then a prefix of the occupation keywords; 4 for an unknown occupation; an empty keyword list leaves "" unfiltered |
| LegacyChatbot.LegacyContextParts | cheeu_chatbot.py:415-419 | one entry per document |
| LegacyChatbot.LegacyContextPartsIndex | cheeu_chatbot.py:415-419 | the i-th entry is "[source] content" of the i-th document, never cut |
| LegacyChatbot.CollectContextParts | cheeu_chatbot.py:415-419 | the append loop yields the entries |
| LegacyChatbot.LegacyFormatVectorContext | cheeu_chatbot.py:410-421 | the formatter yields the specified context |
| LegacyChatbot.ContextsAgreeOnShortDocuments | cheeu_chatbot.py:410-421 | for documents of at most 500 stripped characters both versions format the same context |
| LegacyChatbot.ContextPartsAgreeIff | cheeu_chatbot.py:415-419 | an entry agrees between the versions exactly when the content is short or its tail past 500 is "..." |
| LegacyChatbot.LegacyFallbackCapsuleCovers | cheeu_chatbot.py:423-452 | the fallback capsule carries the type's own message, no sources and confidence 0.3 |
| LegacyChatbot.LegacyFallbackCapsule | cheeu_chatbot.py:423-452 | the first version's _generate_fallback_capsule; LegacyFallbackCapsuleCovers states its fields |
| LegacyChatbot.LegacyErrorCapsule | cheeu_chatbot.py:394-408 | the except-branch capsule is a failure and a fallback, with confidence 0, no sources, the error message kept and the call's timestamp |
| LegacyChatbot.LegacyGenerateHealingMessage | cheeu_chatbot.py:321-408 | the method's capsule is the first version's generation function |
| LegacyChatbot.LegacyGenerateOutcomes | cheeu_chatbot.py:321-408 | every call returns a capsule: a failure has confidence 0 and an error; a missing profile gives the AttributeError capsule; a fallback has confidence 0.3 |
| LegacyChatbot.LegacyGenerate | cheeu_chatbot.py:321-408 | the first version's generate_healing_message; LegacyGenerateOutcomes and LegacyAcceptsBlankReply state what it returns |
| LegacyChatbot.LegacyAcceptsBlankReply | cheeu_chatbot.py:373-381 | a blank model reply becomes a successful capsule with an empty message, where the current retry loop fails |
| Pipeline.StressTypeTable | backend/chatbot/code/pipeline.py:180-182 | every type's name maps to its value; the first version does the same at backend/chatbot/cheeu_rag_pipeline.py:124-126 |
| Pipeline.StressTypeTableKeys | backend/chatbot/cheeu_rag_pipeline.py:124-126 | the listing has exactly eight entries, each keyed by a type's name |
| Pipeline.CreateUserProfile | backend/chatbot/code/pipeline.py:272-296 | the survey keywords serve as both survey features and personal keywords; msi 75, psi 68, no scores |
| Pipeline.PipelineGenerateValidates | backend/chatbot/code/pipeline.py:77-121 | a blank input or a missing profile gives the error capsule (confidence 0, fallback) without touching the cache; every capsule's confidence lies in [0, 1] |
| Pipeline.PipelineGenerate | backend/chatbot/code/pipeline.py:77-121 | validation, then the chatbot; PipelineGenerateValidates states its outcomes |
| Pipeline.PipelineErrorCapsule | backend/chatbot/code/pipeline.py:106-121 | the pipeline's error capsule is a failure and a fallback, with confidence 0, no sources and the error message kept |
| Pipeline.AdmitWithDefaults | backend/chatbot/code/pipeline.py:349-358 | a profile-less request gets the defaults: nickname 사용자{i+1}, 25, 기타, 기타, XXX, no keywords |
| Pipeline.FoldLength | backend/chatbot/code/pipeline.py:338-376 | one entry per request, and a bounded cache stays bounded |
| Pipeline.FoldEntryAt | backend/chatbot/code/pipeline.py:338-376 | entry i is what the loop body makes of request i against the cache the earlier requests left |
| Pipeline.BatchSnoc | backend/chatbot/code/pipeline.py:341-376 | one more request appends exactly its own entry |
| Pipeline.ProcessRequestOutcome | backend/chatbot/code/pipeline.py:341-376 | an entry carries its request id and fails exactly when the stripped input is blank or, as written, there is no profile |
| Pipeline.ProcessRequest | backend/chatbot/code/pipeline.py:341-376 | one turn of the batch loop; ProcessRequestOutcome states when it fails and what it returns |
| Pipeline.BatchShape | backend/chatbot/code/pipeline.py:331-376 | len(requests) entries in order with request_id = i; a blank input gives the blank-input failure; as written a profile-less request gives the TypeError |
| Pipeline.Batch | backend/chatbot/code/pipeline.py:331-384 | batch_generate_healing_messages, threading the cache through the requests; BatchShape, SuccessCountCountsPassing and the admission lemmas state its entries |
| Pipeline.SuccessCount | backend/chatbot/code/pipeline.py:378 | the success count is at most the number of entries |
| Pipeline.SuccessCountCountsPassing | backend/chatbot/code/pipeline.py:341-378 | the success count equals the number of requests that pass validation |
| Pipeline.ProfilelessBatchFailsAsWritten | backend/chatbot/code/pipeline.py:349-358 | as written, a batch of profile-less requests has no successes |
| Pipeline.DefaultsAdmitEveryNonBlankRequest | backend/chatbot/code/pipeline.py:349-358 | with the defaults, a request succeeds exactly when its stripped input is non-blank |
| Pipeline.RagPipeline.GenerateHealingMessage | backend/chatbot/code/pipeline.py:77-121 | validation then delegation; the result and the new cache are the pipeline generation function's |
| Pipeline.RagPipeline.ProcessOne | backend/chatbot/code/pipeline.py:341-376 | the loop body's entry and new cache are those of the request function |
| Pipeline.RagPipeline.BatchGenerateHealingMessages | backend/chatbot/code/pipeline.py:331-382 | the append loop yields the batch function's entries and cache |
| LegacyPipeline.LegacyCreateUserProfile | backend/chatbot/cheeu_rag_pipeline.py:168-187 | the profile holds exactly the given fields, with no survey scores |
| LegacyPipeline.DefaultProfile | backend/chatbot/cheeu_rag_pipeline.py:224-233 | the defaults: nickname 사용자{i+1}, age 25, 기타, 기타, XXX, [], msi 75, psi 68 |
| LegacyPipeline.MapRequests | backend/chatbot/cheeu_rag_pipeline.py:219-248 | one entry per request, entry i made from request i |
| LegacyPipeline.LegacyProcessRequest | backend/chatbot/cheeu_rag_pipeline.py:219-248 | one turn of the first version's loop always yields a success entry carrying request id i |
| LegacyPipeline.LegacyBatch | backend/chatbot/cheeu_rag_pipeline.py:214-250 | the first version's batch over the requests in order; LegacyBatchNeverFails and LegacyBatchEntryAt state its entries |
| LegacyPipeline.LegacyBatchNeverFails | backend/chatbot/cheeu_rag_pipeline.py:214-250 | len(requests) entries with request_id = i, all successes |
| LegacyPipeline.LegacyBatchEntryAt | backend/chatbot/cheeu_rag_pipeline.py:219-240 | entry i is the capsule for request i's input and its own or the default profile |
| LegacyPipeline.LegacyBatchGenerateHealingMessages | backend/chatbot/cheeu_rag_pipeline.py:214-250 | the append loop yields the batch function's entries |
| Api.GetStep | api.py:43-63 | an existing instance is returned and kept; otherwise the created one is stored, and a failed creation leaves the slot empty |
| Api.SingletonIsSticky | api.py:43-63 | without a reset, every later get returns the same instance, whatever the arguments |
| Api.ResetThenGetCreates | api.py:346-349 | after reset_pipeline the next get returns a newly created instance |
| Api.OneResultPerGet | api.py:43-63 | each get yields one result and a reset none |
| Api.PipelineRegistry.constructor | api.py:16 | the slot starts empty |
| Api.PipelineRegistry.GetPipeline | api.py:43-63 | the result and the new slot are those of the get step |
| Api.PipelineRegistry.ResetPipeline | api.py:346-349 | the slot is empty afterwards |
| Api.PipelineRegistry.BatchHealingMessages | api.py:135-170 | a failed get gives an unsuccessful summary with its error and leaves the slot empty; otherwise the singleton's batch results with their counts, and the singleton's search cache is the one the batch leaves |
| Api.SummaryCounts | api.py:154-162 | successful + failed = total = len(requests), failed is never negative, and the successes are the requests that pass validation |
| Api.Summarize | api.py:154-162 | the summary keeps the total and the results, and successful + failed = total, with at most one success per result |
| Api.GetStressTypeInfo | api.py:173-228 | the code is the three O/X flags; the type's name is the code; the emoji is never the 🤖 default and the description never the default |
| Api.DescriptionsCoverEveryType | api.py:285-298 | each of the eight types has its own description; the default is unreachable |
| Api.CreateUserProfileSimple | api.py:302-343 | the type's name is the survey code; None keywords become []; survey features ["기본_설문_기반"], msi 75, psi 68 |
| Api.ProfileAndInfoAgree | api.py:315-331 | the profile helper picks the same type as get_stress_type_info for the same flags |

## Left out

- The vector store, embeddings and Chroma client (`similarity_search*`, `PersistentClient`, `get_collection_info`, `health_check`) are foreign I/O. The store is a function from query and count to hits or a raised error.
- The language model and prompt text (`predict`, `PromptTemplate.format`) are an external service. Each attempt's outcome is given as `Llm`, and the prompt is not built.
- Timestamps from `datetime.now()` are a clock parameter. `hash(str(sub_queries))` is a function parameter of the vector store. Logging is not modelled.
- Floating point: scores, weights and distances are `real`, so IEEE rounding and `:.3f` formatting are not modelled.
- Lower-casing in keyword matching is ASCII only; Python's full Unicode `lower()` is not modelled.
- `get_character_info`, `get_system_info`, `health_check`, `search_with_score`, `quick_healing_message`, `get_available_occupations` and the Streamlit apps are reporting or UI code outside the core.
- The first version's `search_documents`, `search_with_priority`, `calculate_confidence` and `generate_healing_capsule_simple` are one-line pass-throughs to modelled members.
- Pipeline construction (`create_pipeline`, reading the API key, opening the store) is I/O. `Api.PipelineRegistry.GetPipeline` receives its outcome as a parameter.
- Batch requests are typed records. Values of the wrong type (a string where a `StressType` is expected, a non-profile object) and falsy profile objects are not modelled, since a dataclass instance is always truthy.
- Pipeline.CreateUserProfile: `survey_keywords or []` is modelled only for lists, and its `ValueError` wrapper cannot fire in the model because constructing the profile never raises. Its `msi` and `psi` default parameters (pipeline.py:279-280) are not parameters of the model: they are fixed at their defaults 75.0 and 68.0, since no caller passes them and nothing in the pipeline reads them.
- Pipeline.StressTypeTableKeys: states that every key is a type's name and that there are eight entries. That every name is a key is in `Pipeline.StressTypeTable`'s own contract.
- LegacyChatbot.LegacyGenerate: the first version calls `predict` once, so it receives one outcome rather than an attempt sequence.
- VectorDb.CheeUVectorDB.AddDocuments: the store's own batching is an abstract `AddBatch` function, and only its success or failure and the resulting store are modelled.

## Findings

| source | as written | input that shows it | evidently intended | confidence | as-written member | corrected member |
|---|---|---|---|---|---|---|
| backend/chatbot/code/pipeline.py:349-358 | the batch loop calls `create_user_profile(..., personal_keywords=...)`, but that method's parameter is `survey_keywords` (line 278), so it raises a TypeError | any request with a non-blank `user_input` and no `user_profile` | build the default profile and generate the capsule, as the first version does | high (not executed) | Pipeline.ProfilelessBatchFailsAsWritten | Pipeline.DefaultsAdmitEveryNonBlankRequest |
| cheeu_vectordb.py:154-181 | the store returns distances (smaller is closer), yet fusion multiplies the raw distance by the weight and sorts descending | two hits at distances 0.9 and 0.1 with k = 1 | rank by similarity 1 - distance, as the current version does | high (not executed) | LegacyVectorDb.FartherDocumentRanksFirst | VectorDb.CloserDocumentRanksFirst |
