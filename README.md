# Closure Compiler service and client: a Dafny model

This project models two pieces of a PHP project that talks to Google's Closure Compiler.

- The local stand-in for the compile endpoint, `local_compiler.php`. Module `LocalCompiler`, file `local_compiler.dfy`.
  - It routes the POSTed form fields. Source text goes to `$data`, externs text to `$externs`, and mapped flags to `$parameters`.
  - It refuses a request that has no source or no flag.
  - It saves non-empty externs to a temporary file and adds a `--externs` flag for it.
  - It joins the command line, runs the compiler, and drains stdout and stderr in a loop driven by two end-of-file flags.
  - It prints either a `serverErrors` response or a `compiledCode` response.
- The client's configuration object, class `Compiler` in `closure.php`. Module `Closure`, file `closure.dfy`.
  - It has private settings with fixed defaults.
  - Its setters are lenient: a value is applied only when it is on the setting's allow-list, and otherwise ignored.

Shared pieces:
- `php.dfy` (module `Php`): the PHP semantics the code relies on. That is a tagged PHP value, `empty()` on strings (`""` and `"0"` are both empty), and loose versus strict `in_array`.
- `wire.dfy` (module `Wire`): the two response shapes as one datatype. A response can never carry both shapes.

The outside world enters as fields of the `Host` datatype, as plain values:
- the directory of the compiler jar;
- the URL fetch (`file_get_contents`; a failed fetch returns `false`, which `.=` appends as `""`);
- `escapeshellarg`;
- the temporary file's path;
- the child process, as a function from (command line, standard input) to an outcome.

That outcome is either a spawn failure or two streams. A stream is the sequence of `fgets` results read before `feof` reports its end. A read that finds nothing ready contributes `""`.

Where the code differs from the protocol's documented behaviour, the model follows the code:
- `js_code` and `code_url` are both appended in POST order. Inline code has no precedence (`InlineAndUrlBothKept`).
- A server-error entry carries the keys `code` and `error`.
- The code is always `0`.
- The exit status from `proc_close` (local_compiler.php:161) is ignored. A failing compiler still yields a success response carrying whatever its standard output held, so no tool-execution error is ever reported. `Child.Exited` carries no status for this reason.
- The "missing parameters" response is produced when there is no source or no flag. Either condition alone is enough.

## Model

| member | source | states |
|---|---|---|
| `LocalCompiler.Collect` | local_compiler.php:49-75 | The routing loop's final `$data`, `$externs` and `$parameters` are the source text, externs text and flag list of all the fields. |
| `LocalCompiler.TextAppend` | local_compiler.php:49-67 | The text collected from two batches of fields is the concatenation of their texts. |
| `LocalCompiler.ParametersAppend` | local_compiler.php:69-73 | The flag list collected from two batches of fields is the concatenation of their lists. |
| `LocalCompiler.FieldInPlace` | local_compiler.php:49-67 | A field's text lands in POST order. Inline text is appended as is. A URL contributes its fetched content, and only when the URL is not empty in PHP's sense. |
| `LocalCompiler.ParametersInPlace` | local_compiler.php:69-73 | A field with a mapped key adds exactly its flag entry at its POST position. Any other field adds nothing to the flag list. |
| `LocalCompiler.TextSkipsField` | local_compiler.php:50-67 | A field of the wrong kind leaves a text exactly as it would be without that field. |
| `LocalCompiler.ParametersSkipField` | local_compiler.php:69-73 | A field whose key is not mapped leaves the flag list exactly as it would be without that field. |
| `LocalCompiler.ExternsFieldOnlyFeedsExterns` | local_compiler.php:60-67 | A `js_externs`/`externs_url` field appends to the externs text at its position. It leaves the source text and the flag list unchanged. |
| `LocalCompiler.UnroutedFieldDropped` | local_compiler.php:69-71 | A field with any other key changes nothing that is collected. |
| `LocalCompiler.FlagFields` | local_compiler.php:69-73 | The recognised flag fields, in order. Each has a key of the flag map, and there are no more of them than fields. |
| `LocalCompiler.ParametersAreFlagEntries` | local_compiler.php:69-73 | The flag list has exactly one entry per recognised flag field, in POST order. Entry k is the mapped flag, a space, and the escaped value of the k-th flag field. |
| `LocalCompiler.NoUrlNoFetch` | local_compiler.php:51-58 | Without a URL field the collected text does not depend on the fetch function. |
| `LocalCompiler.InlineAndUrlBothKept` | local_compiler.php:51-58 | Inline code followed by a non-empty source URL gives the code followed by the fetched content. |
| `LocalCompiler.Plan` | local_compiler.php:78-102 | No process is launched exactly when the source text is PHP-empty or there is no recognised flag field. A launch writes the source text to the compiler's input. |
| `LocalCompiler.JoinAppend` | local_compiler.php:100 | Joining two non-empty lists with spaces puts exactly one space between the two joined texts. |
| `LocalCompiler.FlagEntryIsNotExterns` | local_compiler.php:36-40 | No flag entry starts with `--externs `. |
| `LocalCompiler.NoExternsEntryAmongFlags` | local_compiler.php:69-73 | The flag list holds no `--externs` entry. |
| `LocalCompiler.ExternsEntryAfterFlags` | local_compiler.php:91-96 | The final flags are the flag entries followed by one `--externs <path>` entry when the externs text is not empty. The list is then exactly one entry longer, the extra entry comes last, and it is the only `--externs` entry. With empty externs the list is the flag entries and holds no `--externs` entry. |
| `LocalCompiler.CommandLineEndsWithExterns` | local_compiler.php:91-102 | With externs, the command line is the command, a space, the joined flag entries, a space and `--externs <path>`. |
| `LocalCompiler.Observe` | local_compiler.php:148-149 | An end-of-file flag, once set, stays set. It is set only when the end of its stream was observed. |
| `LocalCompiler.ReadLoop` | local_compiler.php:135-156 | When the loop ends, both end-of-file flags are set. The output and error buffers hold everything each stream delivered, in order. That a stream is read only while its flag is clear is the loop's code, not a clause of its contract. |
| `LocalCompiler.Reply` | local_compiler.php:78-169 | With nothing launched, the response is the single "Missing required parameters." entry. When the launch fails, it is the single "Missing compiler or issue with configuration." entry. Otherwise it is a success whose `compiledCode` is the child's whole standard output, with empty `errors` and `warnings`. Every server-error response has exactly one entry, with code 0. |
| `LocalCompiler.Serve` | local_compiler.php:49-169 | The script launches the planned process and prints the modelled reply. It launches nothing exactly when the source is empty or no flag was given. |
| `Closure.Defaults` | closure.php:27-34 | A fresh object has level `SIMPLE_OPTIMIZATIONS`, warning level `QUIET` and language `ECMASCRIPT5`, all on their allow-lists. It is not secure, uses no library, has no errors, and has null externals and externals URL. |
| `Closure.ApplySecure` | closure.php:48-51 | A boolean argument becomes `secure`. Any other argument changes nothing. No other field changes, and the allow-list invariant is kept. |
| `Closure.ApplyLevel` | closure.php:58-61 | An allow-listed level string becomes the level. Any other argument changes nothing. Only `level` can change, and the invariant is kept. |
| `Closure.ApplyLanguage` | closure.php:69-72 | A supported language string becomes the language. Any other argument changes nothing. Only `language` can change, and the invariant is kept. |
| `Closure.ApplyExternals` | closure.php:80-82 | The argument becomes `externals`, unconditionally. Nothing else changes. |
| `Closure.ApplyExternalsUrl` | closure.php:90-92 | The argument becomes `externals_url`, unconditionally. Nothing else changes. |
| `Closure.LevelConstantsTakeEffect` | closure.php:19-36 | The three `Level` constants are exactly the level allow-list. Setting any of them always takes effect. |
| `Closure.SettersIdempotent` | closure.php:48-92 | Calling a setter twice with the same argument is the same as calling it once. |
| `Closure.SettersCommute` | closure.php:48-92 | Any two setters of different fields commute. All ten pairs of the five setters are covered. |
| `Closure.LastValidLevelWins` | closure.php:58-61 | After a run of `set_level` calls the level is the last allow-listed argument, or the original level when there was none. Nothing else changes, and the level stays allowed. |
| `Closure.LevelAfterAsWritten` | closure.php:58-61 | As written, `set_level` stores its argument exactly when the argument is an allow-listed string or the boolean `true`. Any other argument leaves the level unchanged. |
| `Closure.LooseInArrayAdmits` | closure.php:59 | Loose `in_array` over a list of non-empty, non-numeric words admits exactly those words and the boolean `true`. |
| `Closure.LooseLevelCheckAdmitsTrue` | closure.php:59 | As written, `set_level(true)` stores the boolean `true` as the level, although `true` is not an allow-listed string. |
| `Closure.LanguageAfterAsWritten` | closure.php:69-72 | As written, `set_language` stores its argument exactly when the argument is a supported string or the boolean `true`. Any other argument leaves the language unchanged. |
| `Closure.LooseLanguageCheckAdmitsTrue` | closure.php:70 | As written, `set_language(true)` stores the boolean `true` as the language. |
| `Closure.Compiler.constructor` | closure.php:27-34 | A new object's fields are the defaults. |
| `Closure.Compiler.SetSecure` | closure.php:48-51 | The new field values are `ApplySecure` of the old ones. |
| `Closure.Compiler.SetLevel` | closure.php:58-61 | The new field values are `ApplyLevel` of the old ones. This uses the strict allow-list test (see Findings). |
| `Closure.Compiler.SetLanguage` | closure.php:69-72 | The new field values are `ApplyLanguage` of the old ones. This uses the strict allow-list test (see Findings). |
| `Closure.Compiler.SetExternals` | closure.php:80-82 | The new field values are `ApplyExternals` of the old ones. |
| `Closure.Compiler.SetExternalsUrl` | closure.php:90-92 | The new field values are `ApplyExternalsUrl` of the old ones. |
| `Closure.Compiler.GetErrors` | closure.php:99-101 | Returns the error list and changes nothing. |

## Left out

- Process plumbing is not modelled as operations: `proc_open`, the pipe descriptors, `fwrite`/`fclose` on stdin, `stream_set_blocking`, `stream_select`, `fgets`, `feof` and `proc_close` (local_compiler.php:101-161). They are OS calls about timing and concurrency. What the loop sees of them is the outcome `Host.child` returns: a spawn failure, or the two sequences of read results. The working directory `/tmp` belongs to that process and is not modelled.
- `file_get_contents`, `escapeshellarg`, `tmpfile`/`stream_get_meta_data` and `dirname(__FILE__)` are fields of `Host`. Their results are not interpreted. Writing the externs text into the temporary file, and the file's lifetime, are not modelled.
- The IP allow-list check (local_compiler.php:42-46) is not modelled. The list is empty as shipped, so the check never blocks.
- `header`, `print(json_encode(…))`, `die` and `error_log` are not modelled. The response is the `Wire.Response` value, and the logged message is not modelled.
- Form values are strings. A PHP array value (a `key[]=…` field) is not modelled.
- A repeated form key, which is how the protocol sends several `code_url` values, reaches the `foreach` as one field holding the last value. A field sequence with a repeated key therefore describes no actual request. The lemmas hold for every sequence, so they hold for the sequences that do occur.
- A child that never ends one of its streams is outside the model. The script's read loop has no time-out and would spin forever on such a child. In the model both streams are finite sequences, so `ReadLoop` always terminates.
- `compile()` and `compile_and_save()` (closure.php:108-119) are empty, so there is nothing to state about them. `warning_level` and `use_library` have no setters. Their fields keep their defaults. No setter was invented for them.
- The `URL` constant is kept as `Closure.Url`, and nothing uses it.
- `test.php` is a script against the network service. It calls `set_code` and `get_warnings`, which `closure.php` does not define. Only its loop over the three levels is reflected, in `LastValidLevelWins`.
- `Closure.LevelAfterAsWritten`: models PHP 8's loose comparison. Under PHP 7 the integer `0` would also pass the level and language checks.
- `LocalCompiler.Collect`: PHP 8 semantics also govern the `switch` at local_compiler.php:50. Under PHP 7 a POST key `"0"` becomes the integer `0`, and `0 == 'js_code'` holds, so its value would go to `$data`. The model drops that field.

## Findings

| source | as written | input that shows it | evidently intended | confidence | as-written member | corrected member |
|---|---|---|---|---|---|---|
| closure.php:59 | `in_array($level, $this->optimization_levels)` compares loosely, and the argument itself is stored | `set_level(true)`: `true == 'WHITESPACE_ONLY'` holds, so `level` becomes the boolean `true` | only one of the three level strings is ever stored (strict `in_array`) | medium, not executed | `Closure.LooseLevelCheckAdmitsTrue` | `Closure.ApplyLevel` |
| closure.php:70 | `in_array($language, $this->supported_languages)` compares loosely | `set_language(true)`: `language` becomes the boolean `true` | only a supported language string is ever stored | medium, not executed | `Closure.LooseLanguageCheckAdmitsTrue` | `Closure.ApplyLanguage` |
