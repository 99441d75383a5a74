# vscode-database-client core rules in Dafny

This project models the deterministic rules that the tree nodes and connection classes of
the Database Client extension for VS Code apply to strings, lists and caches:

- the per-dialect identifier quoting `wrapByDb`;
- a schema node's group children with their cache, the drop and truncate confirmation, the
  icon, the tooltip and the active check;
- the Redis connection: client options, command tokenising, cluster rejection and the
  single-report guard of `connect`;
- the Redis connection node: the `INFO keyspace` parse, label and description, version
  capture;
- the Elasticsearch index node: label from a `_cat/indices` line, mapping to columns, hits
  flattened into a table, the `source.json` document of its mapping;
- the Elasticsearch connection node: label, description, icon, children, query file name;
- for both connection nodes, the TypeError that `new` and `copyName` throw when a descriptor
  says it is tunnelled but carries no SSH settings;
- the file manager: sanitised names, write and `\n\n`-separated append, create-if-missing and
  the directory walk, over a map from path to content and a set of directories, with the
  errors the file system throws when a file stands where a directory is needed or the
  other way round;
- the connection service: the `trim` key filter applied by `JSON.stringify`, SQLite detection
  and installer choice, the order of calls in `connect`, and the preparation of a node for
  the edit form.

One module per source file: `Wrapper`, `Schema`, `RedisConnection`, `RedisNode`, `EsIndex`,
`EsConnection`, `Files` and `ConnectService`. Shared helpers sit in `Wrappers` (Option and
Result), `Strings` (the JavaScript string operations the sources use: `split`, `join`,
`trim`, `/\s+/` splitting, `replace`, ASCII lower-casing, decimal rendering), `Json` (parsed
JSON values with `JSON.parse` key semantics: the last duplicate wins; `Object.keys`,
`for...in` and object spread list the array-index keys first, in ascending numeric order,
then the other keys in the order they were created, as the OrdinaryOwnPropertyKeys
operation of the ECMAScript language specification prescribes) and `NodeCommon` (database types, the connection descriptor, the label rules the
Redis and Elasticsearch connection nodes share, and the static version map as a class).

Collaborators that are not part of this model appear as inputs:

- replies from the Redis server, HTTP replies from Elasticsearch, dialog results;
- configuration flags, the platform name and the set of available commands;
- the result of `isActive`, of `getUid` and of the extension-version comparison;
- the statements of the dialect's truncate query.

The calls `connect` makes on the connection and SSH managers are returned as a list.
Asynchronous completions (the Redis `getVerison` reply, the Elasticsearch `get /` reply) are
separate methods that take the reply.

Where the code and its description disagree, the model follows the code:

- `wrapByDb` quotes the empty string for PostgreSQL as `""`, because splitting `""` on dots
  gives one empty segment;
- hyphen runs between word characters trigger quoting just as whitespace runs do;
- exceptions the code does not catch are `Err` results carrying the error text V8 gives:
  `Cannot read properties of null (reading '<key>')` names the key read from `null` or
  `undefined`, a null first hit fails reading `_source` and a later one reading `_index`,
  and a reply whose `hits` or `hits.hits` is missing or `null` fails at the read it reaches;
- file-system calls that throw (`mkdirSync` over a file, a write onto a directory or under
  a file) are `Err` results with Node's `EEXIST`, `EISDIR` or `ENOTDIR` message; `record`
  throws inside its promise's executor, so its promise rejects.

`Node.wrap`, used by the schema node's DROP statement, belongs to a class not in this model. It
is taken to be `wrapByDb` with the node's type.

## Model

| member | source | states |
|---|---|---|
| Wrapper.Enclose | src/common/wrapper.js:8 | one result per segment, each exactly the segment between the opening and closing character |
| Wrapper.NullPassesThrough | src/common/wrapper.js:6 | a null or undefined identifier comes back as it is, for every dialect |
| Wrapper.QuoteSegmentsRoundTrip | src/common/wrapper.js:7-8 | per-segment quoting with a non-dot quote: re-splitting gives exactly the quoted segments, as many as the input had, and stripping the quotes and rejoining restores the input |
| Wrapper.PostgresQuotesEverySegment | src/common/wrapper.js:7-8 | PostgreSQL double-quotes every dot segment whatever its content, keeps the segment count, and the quoting can be undone |
| Wrapper.MongoIsIdentity | src/common/wrapper.js:10-11 | MongoDB returns the identifier unchanged |
| Wrapper.UnchangedIffNoQuotingNeeded | src/common/wrapper.js:14-21 | outside PostgreSQL and MongoDB the identifier is unchanged exactly when neither the separator-run test nor the reserved-word test fires |
| Wrapper.SqlServerBracketsEverySegment | src/common/wrapper.js:15-16 | SqlServer brackets each dot segment of an identifier that needs quoting, separately |
| Wrapper.OtherDialectsBacktickWhole | src/common/wrapper.js:18 | every other dialect puts one backtick pair around the whole identifier, without splitting on dots |
| Wrapper.PostgresExample | src/common/wrapper.js:8 | `a.b` becomes `"a"."b"` in PostgreSQL |
| Wrapper.ReservedExamples | src/common/wrapper.js:14 | the reserved-word test is whole-string and case-insensitive: `ORDER` and `Key` match, `orders` does not |
| Wrapper.SeparatorExamples | src/common/wrapper.js:14 | a hyphen or space run counts only between word characters: `first-name` and `a b` match, `abc ` and `-x` do not |
| Wrapper.MyTableNeedsQuoting | src/common/wrapper.js:14 | `my table.x` needs quoting |
| Wrapper.MyTableSegments | src/common/wrapper.js:16 | the bracketed segments of `my table.x` are `[my table]` and `[x]` |
| Wrapper.SqlServerExample | src/common/wrapper.js:15-16 | SqlServer turns `my table.x` into `[my table].[x]` |
| Schema.SchemaGroupsShape | src/model/database/schemaNode.ts:46-63 | a recomputed group list starts with the table group, holds a group exactly when its flag is on, keeps the fixed order without repeats, and has one entry plus one per flag that is on |
| Schema.SchemaGroupsMembers | src/model/database/schemaNode.ts:46-63 | a kind is in the recomputed list exactly when it is shown for those flags |
| Schema.CandidatesAscending | src/model/database/schemaNode.ts:48-63 | the flag-gated candidates are tried in strictly ascending group order |
| Schema.SelectedCount | src/model/database/schemaNode.ts:48-63 | conditional pushes add one group per flag that is on |
| Schema.SelectedMembers | src/model/database/schemaNode.ts:48-63 | a group is pushed exactly when some candidate with that group has its flag on |
| Schema.SelectedAscending | src/model/database/schemaNode.ts:48-63 | pushing candidates taken in ascending order keeps the list ascending |
| Schema.SchemaGroupsUnfold | src/model/database/schemaNode.ts:46-63 | the list is the table group followed by the five flag-gated pushes, in order |
| Schema.SelectedShape | src/model/database/schemaNode.ts:48-63 | conditional pushes over candidates in ascending order give an ascending list of exactly the enabled candidates, one per enabled flag |
| Schema.TablesAndProceduresScenario | src/model/database/schemaNode.ts:46-63 | with only procedures enabled the children are the table group and the procedure group |
| Schema.NewSchemaGroups | src/model/database/schemaNode.ts:46-63 | builds fresh group nodes, with empty caches, whose kinds are the recomputed group list |
| Schema.PushGroup | src/model/database/schemaNode.ts:48-50 | one flag-gated push: the earlier groups are kept and one fresh group of the kind is added exactly when the flag is on |
| Schema.SchemaNode.GetChildren | src/model/database/schemaNode.ts:33-67 | MongoDB and ClickHouse get their fixed groups and the cache is untouched; a non-empty cache without a refresh is returned as it is; otherwise the recomputed list is returned and stored |
| Schema.SchemaNode.constructor | src/model/database/schemaNode.ts:24-31 | a new node has no cached children, the tooltip of its type and metadata, and the icon of its active state |
| Schema.SchemaNode.CheckActive | src/model/database/schemaNode.ts:69-73 | the icon is recomputed from whether the active node passes `isActive` and names this database and schema |
| Schema.SchemaNode.BindToolTip | src/model/database/schemaNode.ts:84-88 | a MySQL schema with metadata gets the charset and collation tooltip, others keep theirs |
| Schema.IsActiveSchema | src/model/database/schemaNode.ts:71 | active exactly when `isActive` holds and the active node has the same database and schema |
| Schema.SchemaIconId | src/model/database/schemaNode.ts:77 | `database` exactly for MySQL and ClickHouse, `symbol-struct` otherwise |
| Schema.SchemaIcon | src/model/database/schemaNode.ts:75-82 | the icon id of the type, coloured only when colour icons are supported, blue when active |
| Schema.SchemaTooltip | src/model/database/schemaNode.ts:84-88 | a tooltip exactly for MySQL schemas with metadata, naming charset and collation |
| Schema.ConfirmedMeansSameLetters | src/model/database/schemaNode.ts:94 | the confirmation holds exactly for a non-empty input of the name's length that matches it letter by letter up to ASCII case; the name itself confirms unless empty |
| Schema.ConfirmationExamples | src/model/database/schemaNode.ts:113 | `Orders` confirms `orders`; `Order`, an empty input and a cancelled dialog do not |
| Schema.DropTarget | src/model/database/schemaNode.ts:92 | `schema` exactly for SqlServer and PostgreSQL, `database` otherwise |
| Schema.SchemaNode.DropDatabase | src/model/database/schemaNode.ts:90-106 | only a confirmed name issues `DROP <target> <quoted schema>`; once it has run, every child served by `getChildren` loses its cache and the parent's cache is cleared, and nothing changes otherwise |
| Schema.ClearCaches | src/model/database/schemaNode.ts:96-98 | afterwards every child in the list has no cached children |
| Schema.ParentNode.ClearCache | src/model/database/schemaNode.ts:99 | the parent's cache is emptied |
| Schema.TruncateDb | src/model/database/schemaNode.ts:109-124 | a confirmed name runs the dialect's statements as one batch, in order; otherwise only the cancel message is shown |
| Schema.SchemaNode.NewQuery | src/model/database/schemaNode.ts:126-130 | records an empty document under `<uid>/<schema>.sql` in write mode, the uid asked with the schema exactly for SqlServer and PostgreSQL, with the outcome `record` has there |
| RedisConnection.ConnectTimeout | src/service/connect/redisConnection.ts:17 | a non-zero timeout is kept and zero becomes 5000, so the result is never zero |
| RedisConnection.CertificateFile | src/service/connect/redisConnection.ts:27-29 | a certificate is read exactly when its path is non-empty |
| RedisConnection.TlsFor | src/service/connect/redisConnection.ts:25-31 | the TLS block does not reject unauthorised peers, requires TLSv1 and names the three certificate files |
| RedisConnection.Options | src/service/connect/redisConnection.ts:12-32 | host, port, password and database are copied; the user name only when non-empty; the timeout is defaulted; IPv4, no reconnect on error; TLS exactly when SSL is on |
| RedisConnection.RedisConnection.constructor | src/service/connect/redisConnection.ts:10-36 | the client gets those options, as a cluster seeded with the node's endpoint or as a single server |
| RedisConnection.TokeniseKeepsText | src/service/connect/redisConnection.ts:40-41 | the command and its arguments rejoined are the line with its space runs collapsed, so only spaces are lost; no token holds a space and only the last argument can be empty |
| RedisConnection.TokeniseRejoined | src/service/connect/redisConnection.ts:40-41 | tokenising the rejoined command gives the same command again |
| RedisConnection.TokeniseWords | src/service/connect/redisConnection.ts:40-41 | a line of space-free words separated by space runs tokenises to those words, the first as command |
| RedisConnection.RedisConnection.Query | src/service/connect/redisConnection.ts:39-47 | a single server is sent the tokenised command; a cluster refuses with the cluster message and is sent nothing |
| RedisConnection.RedisConnection.Connect | src/service/connect/redisConnection.ts:53-70 | for any sequence of error, timer and ping events the callback runs at most once, exactly when some event arrives, with the first event's report; the timer uses the defaulted timeout |
| RedisConnection.TimeoutOnlyWhenFirst | src/service/connect/redisConnection.ts:60-64 | when no error or ping carries the timeout text, the timeout is reported exactly when the timer fires first |
| RedisConnection.RedisConnection.IsAlive | src/service/connect/redisConnection.ts:79-81 | never true, since the field it reads is never assigned |
| RedisNode.FromEntries | src/model/redis/redisConnectionNode.ts:50-52 | the entry keys are exactly the keys of the pieces |
| RedisNode.FromEntriesLastWins | src/model/redis/redisConnectionNode.ts:50-52 | a key holds the value of its last piece |
| RedisNode.ParseEntry | src/model/redis/redisConnectionNode.ts:49-52 | a trimmed `db` line parses exactly when it contains a colon |
| RedisNode.DbLines | src/model/redis/redisConnectionNode.ts:46-47 | exactly the lines whose trimmed form starts with `db` are kept |
| RedisNode.DbLinesConcat | src/model/redis/redisConnectionNode.ts:47 | the filter keeps the order of the lines |
| RedisNode.Collect | src/model/redis/redisConnectionNode.ts:48-53 | the parsed entries, one per line in order, or the first error the callback throws |
| RedisNode.EntryName | src/model/redis/redisConnectionNode.ts:49-52 | an entry's name is the text before the first colon without its leading `db`, unless a field is itself called `name` |
| RedisNode.SecondColonIgnored | src/model/redis/redisConnectionNode.ts:49 | text after a second colon does not change the entry |
| RedisNode.TwoFieldEntry | src/model/redis/redisConnectionNode.ts:49-52 | `db<n>:k1=v1,k2=v2` gives name `n` and the two fields |
| RedisNode.KeyspaceLineExample | src/model/redis/redisConnectionNode.ts:49-52 | `db3:keys=5,expires=0` gives name `3`, keys `5` and expires `0` |
| RedisNode.RestOfLine | src/model/redis/redisConnectionNode.ts:104 | the captured text runs up to the first line terminator or the end |
| RedisNode.MatchVersionIsLeftmost | src/model/redis/redisConnectionNode.ts:104 | no match exactly when `redis_version:` followed by a character is absent; otherwise the capture is the non-empty rest of the line at the leftmost match |
| RedisNode.Exec | src/model/redis/redisConnectionNode.ts:85-92 | empty terminal input sends nothing; anything else sends its tokenised command |
| RedisNode.InitialDisplay | src/model/redis/redisConnectionNode.ts:25-30 | the endpoint label renamed or described by the parent name; a tunnelled descriptor without SSH settings throws reading `host` |
| RedisNode.RedisConnectionNode.constructor | src/model/redis/redisConnectionNode.ts:22-41 | past the label (`Initial`): a disabled node appends ` closed` and stops; otherwise a cached version is appended after a space, and only without one is the version requested |
| RedisNode.RedisConnectionNode.Create | src/model/redis/redisConnectionNode.ts:22-41 | `new` throws reading `host` exactly when the descriptor is tunnelled without SSH settings; otherwise the node is fresh in the constructor's state |
| RedisNode.RedisConnectionNode.VersionArrived | src/model/redis/redisConnectionNode.ts:100-108 | a captured version becomes the description after a space and is stored under the key; a reply without one changes nothing |
| RedisNode.RedisConnectionNode.GetChildren | src/model/redis/redisConnectionNode.ts:43-62 | no reported databases give one entry for the configured database or `0`; a configured database not reported is put in front; otherwise the parsed list; the configured database is always present |
| Json.CreationOrder | src/model/es/indexNode.ts:36 | the parsed object's names, each once, in the order `JSON.parse` first creates them |
| Json.NumberIsIndexKey | src/model/es/indexNode.ts:40 | the decimal rendering of every number below 2^32 - 1 is an index key of that value |
| Json.SortIndicesAscending | src/model/es/indexNode.ts:40 | distinct index keys are put in strictly ascending numeric order |
| Json.SortIndicesSorted | src/model/es/indexNode.ts:40 | index keys already in ascending order keep their order |
| Json.PropertyOrderFacts | src/model/es/indexNode.ts:40 | the property order of distinct created keys lists the same keys once each, every index key before every other key, the index keys ascending and the other keys in creation order |
| Json.Keys | src/model/es/indexNode.ts:38-40 | `Object.keys` lists each member name of the object once and nothing else |
| Json.KeysOrder | src/model/es/indexNode.ts:38-40 | `Object.keys` lists the array-index keys first, in ascending numeric order, then the other keys in the order they were first created |
| Json.Lookup | src/model/es/indexNode.ts:41 | a property read is undefined exactly when no member has that name |
| EsIndex.IndexLabel | src/model/es/indexNode.ts:22-23 | the label is the third whitespace-separated field, undefined when there are fewer |
| EsIndex.IndexLabelOfFields | src/model/es/indexNode.ts:22-23 | for a line of space-free fields the label is the third field |
| EsIndex.IndexNode.constructor | src/model/es/indexNode.ts:19-31 | the node's label is the info line's label, its type the parent's, and no properties are stored |
| EsIndex.FirstTypeProperties | src/model/es/indexNode.ts:38 | the `properties` of the first mapping type in `Object.keys` order; nothing when there is no type |
| EsIndex.ColumnsOf | src/model/es/indexNode.ts:40-43 | one column per property key, in `Object.keys` order, each holding that key's mapping |
| EsIndex.MappingChildren | src/model/es/indexNode.ts:33-52 | a failed request gives its error as the one placeholder; `null` data gives the placeholder of the read of the label; no mappings give no children; otherwise the first type's properties are stored, nullish properties give the placeholder of `Object.keys(undefined)`, and an object's keys become columns in `Object.keys` order |
| EsIndex.IndexNode.GetChildren | src/model/es/indexNode.ts:33-52 | returns those children and stores the properties exactly when the lookup reached them |
| EsIndex.Assign | src/model/es/indexNode.ts:80 | in creation order, a spread member replaces an existing member of that name in its place, or is appended |
| EsIndex.SpreadNames | src/model/es/indexNode.ts:80 | spreading distinct keys creates, after the earlier members, exactly the keys not already present, in the source's order |
| EsIndex.SpreadKeys | src/model/es/indexNode.ts:80 | spreading keeps the earlier members' names and positions, appends only source keys and leaves members not named by the source unchanged |
| EsIndex.SpreadKeysValues | src/model/es/indexNode.ts:80 | after the spread every source key is a member holding its source value |
| EsIndex.RowShape | src/model/es/indexNode.ts:75-81 | a row is created as `_index`, `_type`, `_id`, `_score` and then the other source keys in the source's order; `Object.keys` of the row lists the source's index keys first, then the meta names, then the source's other keys; a meta value stays unless the source overrides it; every source key holds its source value |
| EsIndex.IndexKeyOrderExample | src/model/es/indexNode.ts:67-82 | for a hit whose source is `{"a": 1, "7": 2}` the fields are `_index`, `_type`, `_id`, `_score`, `7`, `a`, while the row's keys are `7`, `_index`, `_type`, `_id`, `_score`, `a` |
| EsIndex.RowsOf | src/model/es/indexNode.ts:68-82 | one row per hit, in order |
| EsIndex.HasNullHit | src/model/es/indexNode.ts:76 | holds exactly when some hit is `null` |
| EsIndex.FlattenSpec | src/model/es/indexNode.ts:67-82 | a `null` hit aborts, reading `_source` when it is the first hit and `_index` otherwise; otherwise the fields are the first hit's and the rows are one per hit |
| EsIndex.PushFields | src/model/es/indexNode.ts:70-73 | the four meta fields followed by the first hit's source keys in `for...in` order |
| EsIndex.PushAll | src/model/es/indexNode.ts:71-73 | pushing the keys one at a time appends exactly those keys, in order |
| EsIndex.Flatten | src/model/es/indexNode.ts:67-82 | the loop over the hits produces exactly that table |
| EsIndex.IndexNode.LoadData | src/model/es/indexNode.ts:55-87 | the request is `from 0, size 10, match_all`; a reply without a hit array throws the error of the read that fails; otherwise the flattened table is sent |
| EsIndex.IndexNode.ShowSource | src/model/es/indexNode.ts:99-104 | the mapping is fetched only when no properties are stored; the stored properties, rendered (`undefined` when unset), are recorded as `<uid>/source.json` in write mode, with the outcome of `RecordOutcome` |
| EsConnection.RemoveSchemeLeftmost | src/model/es/model/esConnectionNode.ts:27 | the leftmost `http://` or `https://` is cut out and the text around it is kept |
| EsConnection.RemoveSchemeAbsent | src/model/es/model/esConnectionNode.ts:27 | a host without a scheme is unchanged |
| EsConnection.RemoveSchemeOfUrl | src/model/es/model/esConnectionNode.ts:27 | a URL host loses its scheme and keeps the rest |
| EsConnection.EsLabel | src/model/es/model/esConnectionNode.ts:26-30 | the SSH endpoint when tunnelled, in both version branches, and the `host` TypeError when the SSH settings are missing; otherwise the host without its scheme for newer versions and `host@port` for older ones |
| EsConnection.InitialDisplay | src/model/es/model/esConnectionNode.ts:26-36 | that label renamed or described by the parent name, or the label's TypeError |
| EsConnection.StripLeadingScheme | src/model/es/model/esConnectionNode.ts:66 | a leading `http:` or `https:` is removed and nothing else |
| EsConnection.QueryFileName | src/model/es/model/esConnectionNode.ts:66 | the file name ends in `.es` and has no `/` before it |
| EsConnection.QueryFileNameOfUrl | src/model/es/model/esConnectionNode.ts:66 | `http://rest` or `https://rest` names the file `rest` without slashes plus `.es`, so `http://localhost:9200` gives `localhost:9200.es` |
| EsConnection.QueryFileNameOfPlainHost | src/model/es/model/esConnectionNode.ts:66 | a host without scheme or slash gives host plus `.es` |
| EsConnection.ServerIcon | src/model/es/model/esConnectionNode.ts:59-60 | the active or inactive server icon under the resource path |
| EsConnection.EsConnectionNode.constructor | src/model/es/model/esConnectionNode.ts:23-62 | past the label (`Initial`): a disabled node appends ` closed` and keeps the default icon; otherwise a cached version replaces the description or the version is requested, and the server icon is chosen |
| EsConnection.EsConnectionNode.Create | src/model/es/model/esConnectionNode.ts:23-62 | `new` throws reading `host` exactly when the descriptor is tunnelled without SSH settings; otherwise the node is fresh in the constructor's state |
| EsConnection.EsConnectionNode.VersionArrived | src/model/es/model/esConnectionNode.ts:50-56 | the version's `number`, even when undefined, becomes the description and is stored under the key; a read that throws changes nothing |
| EsConnection.EsConnectionNode.GetChildren | src/model/es/model/esConnectionNode.ts:70-74 | always the index group followed by the query group |
| EsConnection.EsConnectionNode.NewQuery | src/model/es/model/esConnectionNode.ts:65-67 | records the query template under `<uid>/<file name of the host>` in write mode, with the outcome `record` has there |
| EsConnection.EsConnectionNode.CopyName | src/model/es/model/esConnectionNode.ts:76-78 | the SSH host when tunnelled, the host otherwise; the `host` TypeError when tunnelled without SSH settings |
| NodeCommon.EndpointLabel | src/model/redis/redisConnectionNode.ts:25 | `ssh.host@ssh.port` when tunnelled, `host@port` otherwise; an error exactly when tunnelled without SSH settings, with the text of reading `host` of undefined |
| NodeCommon.NamedDisplay | src/model/redis/redisConnectionNode.ts:26-30 | a parent name replaces the label when names are preferred and becomes the description otherwise |
| NodeCommon.AppendDescription | src/model/redis/redisConnectionNode.ts:33 | the suffix is appended to the description, or stands alone without one |
| NodeCommon.VersionMap.Cached | src/model/redis/redisConnectionNode.ts:36-37 | a version is cached exactly when the key holds a defined, non-empty one |
| Files.Sanitise | src/common/filesManager.ts:41 | no `:`, `*`, `?`, `"`, `<` or `>` is left and the name gets no longer |
| Files.SanitiseIdempotent | src/common/filesManager.ts:41 | sanitising twice is sanitising once |
| Files.SanitiseKeeps | src/common/filesManager.ts:41 | exactly the allowed characters survive, in order, and a clean name is unchanged |
| Files.RecordedCases | src/common/filesManager.ts:48-55 | write mode stores exactly the content; appending to a non-empty file stores the old content, a blank line and the content; otherwise the content alone |
| Files.FileManager.GetPath | src/common/filesManager.ts:60-62 | a name without a separator lies directly in the storage directory |
| Files.FileManager.RecordPath | src/common/filesManager.ts:41-43 | the sanitised name under the storage path |
| Files.FileManager.ShowPath | src/common/filesManager.ts:24 | an absolute name is used as it is, a relative one goes under the storage path |
| Files.ParentDir | src/common/filesManager.ts:44 | the path up to its last separator |
| Files.CumulativePathsArePrefixes | src/common/filesManager.ts:75-84 | every visited path is a prefix of the folder path with a separator, they grow strictly, and the last is the whole folder |
| Files.CumulativePathIsPrefix | src/common/filesManager.ts:75-84 | each visited path is a prefix of the folder path followed by a separator |
| Files.CumulativePathGrows | src/common/filesManager.ts:75-84 | each visited path is strictly longer than the one before it |
| Files.CumulativePathLast | src/common/filesManager.ts:75-84 | the last visited path is the whole folder path followed by a separator |
| Files.WalkStep | src/common/filesManager.ts:79-81 | one `mkdirSync`: an existing path is skipped, a file named like the directory makes it throw, and no directory disappears |
| Files.Walk | src/common/filesManager.ts:76-83 | the walk over the visited paths keeps every existing directory and stops at the first error |
| Files.WalkClear | src/common/filesManager.ts:76-83 | with no file in the way, every visited directory is made and nothing is thrown |
| Files.WalkFailsAtFile | src/common/filesManager.ts:79-81 | a walk throws only at a visited path taken by a file, with `EEXIST` naming that path |
| Files.WalkStops | src/common/filesManager.ts:76-83 | after the walk has thrown, the remaining paths change nothing |
| Files.FileManager.RecursiveCreate | src/common/filesManager.ts:75-84 | the loop over the pieces is the walk over the cumulative paths, returning at the first error |
| Files.Checked | src/common/filesManager.ts:65-68 | nothing happens when a file or a directory is at the path; otherwise the walk, and no directory disappears |
| Files.CheckedCreates | src/common/filesManager.ts:65-68 | after a check that does not throw, something is at the path |
| Files.CheckedClear | src/common/filesManager.ts:65-68 | a check of a missing path with no file in the way makes the directory and every visited prefix, and throws nothing |
| Files.FileManager.Check | src/common/filesManager.ts:65-68 | the walk runs exactly when nothing is at the path, and its error is passed on |
| Files.WriteError | src/common/filesManager.ts:49-54 | writing onto a directory throws `EISDIR`, writing under a file throws `ENOTDIR`, anything else writes |
| Files.FileManager.WriteOrAppend | src/common/filesManager.ts:48-55 | write mode stores the content; anything else appends it, after a blank line when the file is non-empty |
| Files.FileManager.RecordOutcomeFacts | src/common/filesManager.ts:38-58 | a record writes the sanitised path and nothing else, with the recorded content, or changes no file; no directory disappears |
| Files.FileManager.RecordSucceeds | src/common/filesManager.ts:38-58 | under an existing directory and storage directory, a record fails with `EISDIR` when a directory is at the path and succeeds when neither a directory is there nor a file in its parent's place |
| Files.FileManager.Record | src/common/filesManager.ts:38-58 | an empty name returns nothing and changes nothing; otherwise the check, the storage directory when missing, then the write, stopping at the first error |
| Files.FileManager.ShowOutcomeFacts | src/common/filesManager.ts:21-36 | a show that succeeds leaves something at the path, an existing file or directory unchanged or a new empty file; a failure changes no file |
| Files.FileManager.Show | src/common/filesManager.ts:21-36 | an empty name opens nothing; otherwise the check, then a missing file created empty, stopping at the first error |
| Files.FileManager.SqlDocumentName | src/common/filesManager.ts:17 | the document name holds a separator, so it is never empty and the `!fileName` early return of `record` never fires |
| Files.FileManager.SqlDocumentPlace | src/common/filesManager.ts:16-17 | the name is the uid, a separator and the template (`template.sql` by default), the uid asked with the schema exactly for SqlServer and PostgreSQL |
| Files.FileManager.ShowSqlTextDocument | src/common/filesManager.ts:14-19 | the outcome of recording the text under that name, in write mode unless another mode is given |
| ConnectService.Trim | src/service/connect/connectService.ts:172-202 | undefined exactly for the 25 listed keys, the value unchanged otherwise |
| ConnectService.FilterCleans | src/service/connect/connectService.ts:172-202 | after `JSON.stringify` with the replacer no object at any depth has a listed key, and a value that has none is unchanged |
| ConnectService.FilterIdempotent | src/service/connect/connectService.ts:172-202 | filtering twice is filtering once |
| ConnectService.FilterKeepsOthers | src/service/connect/connectService.ts:172-202 | a key that is not listed, `description` among them, keeps its value, itself filtered |
| ConnectService.SqliteState | src/service/connect/connectService.ts:51 | always true on Windows; elsewhere exactly when `sqlite` or `sqlite3` is available |
| ConnectService.InstallSqlite | src/service/connect/connectService.ts:54-75 | brew on macOS; on Linux apt, then yum, then dnf, then pkg; no command and no terminal on any other platform |
| ConnectService.Connect | src/service/connect/connectService.ts:112-120 | an SSH node gets its key copied into its SSH settings and only the SSH client is requested; any other node has its connection removed before it is requested again |
| ConnectService.PrepareEdit | src/service/connect/connectService.ts:24-34 | the edit copy carries `isGlobal` from the node; its SSH settings lose the tunnel port and get empty algorithms when they had none, and the shared settings change in the node too |

## Left out

- Everything driven through the VS Code API is not modelled: webview panels and their events, terminals, input boxes, messages, tree refreshes and the clipboard. Dialog results are inputs.
- Network clients are not modelled: axios, ioredis `info`, `send_command` and `ping`, `execute` and `QueryUnit`. Their replies are inputs and the requests they would send are results.
- `ConnectionManager`, `SSHClientManager`, `Node.init`, `cacheSelf`, `getUid`, `getConnectId`, `isActive` and `Constants.RES_PATH` are not part of this model. Their results are parameters, and the manager calls `connect` makes are returned as a list.
- The connection retrieval in `truncateDb` happens outside this model: the batch it runs is returned instead.
- `compareVersions` against 3.6.6 is the boolean `newer`, and `commandExistsSync` is a set of available commands.
- `setTimeout` durations and cost-time measurement are not modelled; only the order of the connect events is (the events are a sequence, not concurrent handlers).
- `countSql` of the index node is not modelled: it is one HTTP request whose reply is shown unchanged.
- `listenConfig`, `saveConfig` and the rest of `openConfig` are not modelled: config-file watching and real file I/O. Only the `trim` replacer they serialise with is.
- `openTerminal` of the Redis node is not modelled: it is UI only apart from its `exec` handler, which is `RedisNode.Exec`.
- The `name` field the Redis and Elasticsearch connection nodes copy from their parent is not modelled, since nothing in this model reads it.
- Real file-system effects are not modelled: files are a map from path to content and directories a set of paths. `path.resolve` and `path.join` are taken without normalisation of `.`, `..` and repeated separators, with `/` as separator.
- Files: only the errors of a file standing where a directory is needed, and of a directory where a file is written, are modelled. A missing ancestor (`ENOENT`), permissions, and a file or directory deeper up the path than the parent are not, since the map and the set are not kept closed under parent directories.
- `QueryUnit.showSQLTextDocument`, which `newQuery` of both nodes and `showSource` of the index node call, is not part of this model; it is taken to be `FileManager.showSQLTextDocument` with the same arguments. The query template of the Elasticsearch node is a parameter.
- EsIndex.IndexNode.ShowSource: `JSON.stringify(properties, null, 2)` of a stored value is the parameter `stringify`; only unset properties, which give the text `undefined`, are modelled.
- `copyName` of the schema node only puts the schema name on the clipboard, which is UI; `ConnectionManager.changeActive` in the Elasticsearch `newQuery` is not modelled.
- ConnectService.PrepareEdit: `NodeUtil.removeParent` is not part of this model; it is taken to be a shallow copy, which is what makes the SSH settings shared between the copy and the node.
- Certificate files are named by their paths; their contents are not read.
- Unicode case mapping is not modelled: the confirmation compares ASCII lower-case forms.
- `Object.keys` of a string and property reads on an array are not modelled; objects' array-index keys are.
- JSON numbers are integers, so floating point is not modelled.
- Schema.SchemaNode.GetChildren: the group nodes are modelled by their kind and child cache only.
- ConnectService.TrimmedKeysFacts: the list's size of 25 is stated in prose only; the lemma states the `description`/`descriptionz` facts.
