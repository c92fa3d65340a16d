# port-agent configuration core, modelled in Dafny

This project models `app/core/config.py` of port-agent. That file holds the
agent's whole configuration logic, in two pure parts:

- **Settings resolution** (`SettingsResolver`, `settings.dfy`). The process
  environment becomes one `Settings` record. Every field is read under its
  exact, case-sensitive variable name and falls back to its declared default.
  `STREAMER_NAME` and `PORT_ORG_ID` are required. The three int fields must
  hold a Python integer literal (`IntLiteral`, `int_literal.dfy`). The two
  topic names are derived in a second pass. The first pass keeps the raw
  value, whose declared default is `""`. The second pass (`ApplyDerivations`)
  keeps a non-empty value verbatim. Otherwise it builds
  `PORT_ORG_ID + ".runs"` or `PORT_ORG_ID + ".change.log"` from the
  organisation id the first pass resolved. As in pydantic, all field errors
  are reported together, in declaration order.
- **Payload-mapping validation** (`PayloadMapping`, `mapping.dfy`). A
  mapping file is a JSON array of `{"mapping": Mapping}` records. It is
  taken as an already-parsed `Json` value (`json.dfy`). The untagged unions
  of the source become tagged datatypes: `Enabled = Literal(bool) |
  Dynamic(string)` and `Template = KeyValue(map) | Text(string)`. `method` is
  limited to POST/GET/DELETE/PUT. Absent keys take their defaults, unknown
  keys are ignored, and the list is accepted only when every entry is valid.
  Encoding functions are the partner of validation: encoding a list and
  validating it again gives back the same records.
- **Loading** (`MappingConfigLoader`, `loader.dfy`). The loader returns
  `Success(None)`, meaning no configuration, when
  `CONTROL_THE_PAYLOAD_CONFIG_PATH` is unset or empty. The path is tested
  for truthiness, so `""` counts as unset. Otherwise it returns the
  validated list or a failure naming the file. The module-level `settings`
  object becomes a parameter. The file system and JSON parser become a
  parameter `files: map<string, Json>`: a path not in the map stands for a
  file that is missing, unreadable or not JSON.

Pydantic v1 settings do not ignore empty values, so an environment variable
that is set to the empty string is taken verbatim. So
`STREAMER_NAME=""` resolves to an empty streamer name. It is not reported as
a missing setting, and `KAFKA_CONSUMER_SESSION_TIMEOUT_MS=""` is an invalid
integer, not the default.

## Model

| member | source | states |
|---|---|---|
| `IntLiteral.ParseInt` | app/core/config.py:31 | reading an int field rejects blank strings; a string is accepted iff, after stripping ASCII white space and an optional sign, it is digits grouped by single underscores |
| `IntLiteral.ParseIntSpacedSigned` | app/core/config.py:31 | any white space around the literal is skipped, a `+` sign or none keeps the digits' value and a `-` sign negates it |
| `IntLiteral.ParseIntOfStripped` | app/core/config.py:31 | the value depends only on the stripped text: its sign and its digit groups |
| `IntLiteral.StripPadded` | app/core/config.py:31 | stripping removes exactly the white space around a literal that starts and ends with a visible character |
| `IntLiteral.UnderscoreIgnored` | app/core/config.py:31 | a single underscore between digits does not change the value ("45_000" is 45000) |
| `IntLiteral.LeadingZeroIgnored` | app/core/config.py:31 | leading zeros do not change the value ("007" is 7) |
| `IntLiteral.ParseIntToString` | app/core/config.py:31 | every integer printed in decimal is read back as itself |
| `IntLiteral.ParseIntRejectsForeignChar` | app/core/config.py:56-57 | any character other than white space, a sign, a digit or `_` makes an int setting unreadable |
| `SettingsResolver.RequiredErrors` | app/core/config.py:22-24 | a required field yields an error exactly when its variable is unset, and that error names the variable |
| `SettingsResolver.IntErrors` | app/core/config.py:31 | an int field yields an error exactly when its variable is set to something that is not an integer; the error carries the name and the given value |
| `SettingsResolver.SettingErrors` | app/core/config.py:20-57 | there are no field errors iff both required variables are set and every set int variable is readable; every reported error is a real fault of `env` |
| `SettingsResolver.SettingErrorsComplete` | app/core/config.py:20-57 | every missing required variable and every unreadable int variable is reported under its own name |
| `SettingsResolver.ResolveFields` | app/core/config.py:20-57 | the first pass fails with exactly the field errors; on success the organisation id is the variable's value and both topics hold their raw value (default "") |
| `SettingsResolver.DeriveTopic` | app/core/config.py:39-51 | the derived topic is never empty; a non-empty supplied value is kept; an empty one becomes the organisation id followed by the suffix |
| `SettingsResolver.ApplyDerivations` | app/core/config.py:35-51 | the second pass derives both topics from the resolved organisation id, leaves both non-empty, and changes no other field |
| `SettingsResolver.Resolve` | app/core/config.py:19-57 | resolution succeeds iff both required variables are set and every int variable is readable; a failure carries exactly the field errors; every set variable is read under its own name, strings verbatim and ints as Python integer literals; topics are verbatim when supplied non-empty, else `PORT_ORG_ID + ".runs"` / `+ ".change.log"`; both topics are non-empty; each unset variable takes its declared default (`LOG_LEVEL` "INFO", session timeout 45000, both invoker timeouts 5, path None, ...) |
| `SettingsResolver.ResolveReportsFaultyFields` | app/core/config.py:20-57 | a missing `STREAMER_NAME` or `PORT_ORG_ID`, or an unreadable int variable, makes resolution fail with an error naming it |
| `SettingsResolver.EnvOfIdentityLookups` | app/core/config.py:20-27 | the environment built from a record holds the log level, streamer name, organisation id, GitLab URL, broker list and security protocol under their own names |
| `SettingsResolver.EnvOfConsumerLookups` | app/core/config.py:28-33 | the environment built from a record holds each consumer field under its own name |
| `SettingsResolver.EnvOfTopicAndInvokerLookups` | app/core/config.py:35-57 | the environment built from a record holds the topic, path and invoker fields under their own names |
| `SettingsResolver.ResolveFromLookups` | app/core/config.py:19-57 | an environment that holds every field of a record with non-empty topics resolves to exactly that record |
| `SettingsResolver.ResolveEnvOf` | app/core/config.py:19-57 | every record with non-empty topics is resolved back from its own environment: each field is read from its own variable and nothing is lost |
| `SettingsResolver.ResolveReadsOnlyKnownNames` | app/core/config.py:19-57 | two environments that agree on the seventeen declared names resolve to the same outcome: other variables have no effect |
| `SettingsResolver.ResolveIsCaseSensitive` | app/core/config.py:53-54 | a lower-case `streamer_name` does not provide `STREAMER_NAME` |
| `SettingsResolver.ResolveMinimalEnv` | app/core/config.py:35-51 | with only the two required variables set, the topics are `<org>.runs` and `<org>.change.log` |
| `SettingsResolver.DerivationIdempotent` | app/core/config.py:39-51 | running the derivation pass again changes nothing |
| `PayloadMapping.MethodOf` | app/core/config.py:8 | a string names a method iff it is one of "POST", "GET", "DELETE", "PUT", and the method's name is that string |
| `PayloadMapping.MethodOfName` | app/core/config.py:8 | each method is read back from its own name |
| `PayloadMapping.ValidateEnabled` | app/core/config.py:7 | `enabled` defaults to true when absent, takes a bool as a literal and a string as a dynamic value, and rejects anything else |
| `PayloadMapping.ValidateMethod` | app/core/config.py:8 | `method` is None when absent or null; otherwise accepted iff it is one of the four permitted strings ("PATCH" is rejected), and then it is that method |
| `PayloadMapping.ValidateUrl` | app/core/config.py:9 | `url` is None when absent or null; otherwise accepted iff it is a string, and then exactly `Some` of that string |
| `PayloadMapping.ValidateTemplate` | app/core/config.py:10-12 | `body`/`headers`/`query` are None when absent or null; accepted iff a string (then exactly that text) or an object of strings (kept as the same key/value map); an accepted non-null value is never None |
| `PayloadMapping.ValidateMapping` | app/core/config.py:6-12 | a mapping is valid iff it is an object whose six fields are each valid; its fields are those fields' values; an invalid one has at least one error |
| `PayloadMapping.ValidateEntry` | app/core/config.py:15-16 | an entry is valid iff it is an object with a valid "mapping"; the record wraps that mapping |
| `PayloadMapping.ValidateEntries` | app/core/config.py:66-68 | all or nothing: success iff every entry is valid, then one record per entry in the same order; otherwise a non-empty error list |
| `PayloadMapping.ValidateConfigList` | app/core/config.py:66-68 | the document must be an array; it is accepted iff every entry is valid, giving the same length and order |
| `PayloadMapping.TemplateRoundTrip` | app/core/config.py:10-12 | an encoded body/headers/query value validates back to itself |
| `PayloadMapping.MappingRoundTrip` | app/core/config.py:6-12 | an encoded mapping validates back to itself |
| `PayloadMapping.ConfigListRoundTrip` | app/core/config.py:63-70 | writing a list of records back as a mapping file and validating it again gives the same records |
| `MappingConfigLoader.LoadControlThePayloadConfig` | app/core/config.py:63-70 | the result is "no configuration" iff the path is unset or ""; otherwise the file's entries, validated, in order; for a non-empty readable path it succeeds iff the file validates; a failure names the configured path, and is FileUnavailable iff the file is not readable |
| `MappingConfigLoader.LoadEncodedFile` | app/core/config.py:63-70 | a file holding an encoded list loads as exactly that list |
| `MappingConfigLoader.EmptyFileIsNotNoConfiguration` | app/core/config.py:63-70 | an empty array loads as an empty list, which is distinct from no configuration |
| `MappingConfigLoader.LoadPostExample` | app/core/config.py:6-16 | `[{"mapping": {"method": "POST", "url": "https://x"}}]` loads as one enabled POST mapping to that URL |
| `MappingConfigLoader.LoadPatchRejected` | app/core/config.py:8 | a "PATCH" method in any entry, with any entries before and after it, makes the whole load fail with an invalid-file error |

## Left out

- File opening and JSON text parsing by pydantic's `parse_file_as` are not modelled. The parsed document comes in through the `files` map. The failure kinds "missing", "unreadable" and "not JSON" are merged into one `FileUnavailable`.
- The import-time global `settings = Settings()` reading `os.environ` is not modelled. The environment and the resolved `Settings` are parameters.
- Pydantic's lax coercions are not modelled: a string "true" becoming `True` for `bool | str`, numbers becoming strings, and a list of pairs becoming a dict. Validation here is strictly by JSON type, and each union branch has its own tag.
- Pydantic's error messages are not modelled; errors are reduced to a location and a `Reason`. For a union, the model gives one error per field where pydantic gives one error per branch tried.
- `IntLiteral.ParseInt`: does not model the non-ASCII Unicode digits and white space that Python's `int()` also accepts. For an ASCII string, `int()` skips only space, tab, newline, carriage return, vertical tab and form feed, which is what the model skips. It also does not model pydantic's refusal of integer strings longer than 4300 characters.
- The `"None.runs"` topic that `values.get` produces when `PORT_ORG_ID` is missing is not modelled. It only arises when construction fails anyway, so the model derives topics only after the independent fields resolved.
- What the string form of `enabled` means, and the content of `url`/`body`/`headers`/`query` templates, are not modelled. The source never interprets them.
- The Kafka consumer and the HTTP invokers that read these values are not part of this model.
