# c-io-validate in Dafny

A model of the validation engine of `c-io-validate`, a small C library that validates one line of user input. The engine checks a candidate string against a configuration table of strings (`min_chars`, `max_chars`, `allowed_chars`, `min_num`, `max_num`). An `IOValidate` object is created by `init_validate` and bound to one of three validation functions:

- `VALIDATE_ALPHA` and `VALIDATE_ALPHANUM` run the length gate (`_isvalidlen`) and then the character scan (`_validate_string`).
- `VALIDATE_NUM` runs the number test, then the 64-character text guard, then the range test.

A call returns 1 or 0. On 0 it writes a status message to the caller's `Status`, if one was supplied.

## Layout

| file | module | what it holds |
|---|---|---|
| `wrappers.dfy` | `Wrappers` | `Option` |
| `clib.dfy` | `CLib` | The C library pieces the engine relies on: `isalpha`, `isalnum` and `isspace` in the "C" locale; `atoi` and `atof` on plain decimal text; `%d` rendering (`IntToString`), with the round trips between them. |
| `config.dfy` | `Config` | The configuration table: a `Hashtable` class that the engine holds by reference; `get(key, default)` as `Lookup`, with the add/get round trip; the typed reads `MinChars`, `MaxChars`, `AllowedChars`, `MinNum`, `MaxNum`. |
| `validation.dfy` | `Validation` | The engine as pure functions: `LengthGate` and `IsValidLen`, `RangeCheck`, `Offence` (the verdict on one character), `Scan`, `ValidateString`, `ValidateNum`, and the dispatch `Validate`. Also the `Diag` datatype, which names each failure message and carries its numbers. |
| `engine.dfy` | `Engine` | The `IOValidate` object as the class `Validator`. Its fields are fixed by the constructor (`init_validate`). It has the character loop as a `while` loop (`ScanCharacters`) and the `isvalid` entry point (`IsValid`), which writes the `Status` sink. |
| `properties.dfy` | `Properties` | The promises of the engine, proved over the pure model. |
| `scenarios.dfy` | `Scenarios` | Usage scenarios over the configurations of `tests/test.c`, plus a client that validates twice. |

Modelling choices:

- Every Dafny `char` stands for one C byte, below 256. Multi-byte text, such as UTF-8, is given to the model byte by byte, so `|buff|` is `strlen(buff)`. Configuration values contain no NUL.
- A C string is a `string` with no NUL (`NoNul`). The loop's guard `buff[i]` is modelled as `buff[i] != '\0'`. Because of that guard, the scan's NUL test (src/io_validate.c:149) can never fire. The model keeps it, as the code does.
- `is_number` belongs to a library that is not part of this model. It is a parameter: `isNumber: string -> bool`, held by the `Validator`. Every property holds for any such predicate.
- The private helpers return their diagnostic as a `Diag`. `IsValid` writes it to the `Status` sink. The observable result is the same as the C code, which writes from inside the helpers: one write on failure, none on success.
- Every failure carries the status code `STATUS_INVALID_INPUT`, so the sink records only the `Diag`.
- Under the two string strategies, an empty input passes whenever no positive `min_chars` is set: `_isvalidlen` passes it and the loop at src/io_validate.c:147 runs zero times (`Properties.EmptyInputPassesWithoutMinimum`).
- With only `max_num` set, an out-of-range value gets the two-bound message with a lower bound of 0.00, yet negative values pass. The model keeps this behaviour literally (`Properties.MaxOnlyMessageNamesZero`).

## Model

| member | source | states |
|---|---|---|
| `Engine.Validator.constructor` | src/io_validate.c:19-36 | `init_validate` binds the strategy and the borrowed configuration table for the object's lifetime; the fields are constants |
| `Engine.Validator.IsValid` | include/io_validate.h:27-36 | `isvalid` returns 1 exactly when the bound strategy accepts the input, otherwise 0. On 0 the diagnostic of the failing check is written to a non-null `Status`; on 1 the `Status` is left untouched |
| `Engine.Validator.ValidateAlpha` | src/io_validate.c:50-53 | `VALIDATE_ALPHA` is the string validation under the alphabetic class |
| `Engine.Validator.ValidateAlphaNum` | src/io_validate.c:55-58 | `VALIDATE_ALPHANUM` is the string validation under the alphanumeric class |
| `Engine.Validator.ValidateString` | src/io_validate.c:137-142 | `_validate_string` gives the length gate's failure when the gate fails, and otherwise the scan's verdict |
| `Engine.Validator.ScanCharacters` | src/io_validate.c:144-183 | The loop walks the string up to its terminator and returns exactly the verdict of `Scan`: the first character that fails the class or the allow-list decides, and skipped characters never fail |
| `Config.LookupAfterAdd` | tests/test.c:14-15 | After `add(key, value)`, `get` of that key reads `value`, and `get` of every other key reads what it read before |
| `Config.Hashtable.constructor` | tests/test.c:13-18 | The caller's table holds exactly the entries it was filled with; the engine reads it by reference |
| `Engine.Status.constructor` | tests/test.c:9 | The model starts the sink at no diagnostic. In C the local `Status` is uninitialised, and the program reads it only after a failing call has written it |
| `CLib.Atoi` | src/io_validate.c:114-115 | `atoi` gives a negative value only for text with a leading '-', and reads a plain run of digits as its decimal value |
| `CLib.Atof` | src/io_validate.c:82-85 | `atof` gives a negative value only for text with a leading '-', and reads a plain run of digits as its decimal value |
| `Validation.IsValidLen` | src/io_validate.c:111-135 | `_isvalidlen` on the table passes exactly when the raw length is within the `min_chars`/`max_chars` bounds read with their defaults; a failure names one of the two bounds |
| `Validation.Scan` | src/io_validate.c:147-182 | The character loop fails only with the class message or "Invalid characters.", only with the class message when there is no allow-list, and passes a string of skipped characters |
| `Validation.ValidateString` | src/io_validate.c:137-186 | `_validate_string` returns the length gate's failure whenever the length is out of bounds; any failure is one of the two length messages, the class message or "Invalid characters." |
| `Validation.ValidateNum` | src/io_validate.c:60-105 | `VALIDATE_NUM` passes exactly when the text is a number, is at most 64 characters, and its value is in range; any failure is one of its four messages, carrying the configured bounds |
| `Validation.Validate` | include/io_validate.h:27-36 | The `isvalid` dispatch: a numeric message is written exactly when the bound strategy is `VALIDATE_NUM`, and a string strategy never writes the other class's message |
| `Validation.LengthGate` | src/io_validate.c:111-135 | `_isvalidlen` passes exactly when the length is within both bounds, where a bound of 0 or less means no bound. A failure names the minimum or the maximum |
| `Validation.RangeCheck` | src/io_validate.c:88-101 | The range test passes exactly when the value is not below a non-zero `min_num` and not above a non-zero `max_num`. On failure the minimum-only message is written exactly when `max_num` is 0, and then the value was indeed below a non-zero `min_num`; otherwise the two-bound message names both configured values |
| `Validation.Offence` | src/io_validate.c:148-179 | One character passes exactly when it is skipped (NUL, newline, space, tab), or it is in the class and in the allow-list when that list is non-empty |
| `Properties.MinimumCheckedFirst` | src/io_validate.c:117-124 | An input shorter than a positive `min_chars` fails with the "at least N" message, whatever `max_chars` is |
| `Properties.MaximumCheckedSecond` | src/io_validate.c:125-132 | Once the minimum test passes, an input longer than a positive `max_chars` fails with the "cannot exceed N" message |
| `Properties.NoBoundsNoLengthFailure` | src/io_validate.c:117-134 | With both character bounds at most 0, every input passes the length gate |
| `Properties.LengthFailureShortCircuits` | src/io_validate.c:139-142 | A length failure is the verdict of both string strategies. No character is inspected: any string of the same length gets the same verdict under either class |
| `Properties.ScanPassesIff` | src/io_validate.c:147-182 | The scan passes if and only if no character of the string offends |
| `Properties.ScanFailsAtLeftmost` | src/io_validate.c:147-180 | A failing scan reports the offence of the leftmost offending character; all characters before it pass |
| `Properties.LeftmostOffenceDecides` | src/io_validate.c:147-180 | Conversely, the leftmost offending character decides the scan's failure and its message |
| `Properties.SkippedCharactersAreInert` | src/io_validate.c:148-153 | Inserting a newline, space or tab anywhere leaves the scan's verdict unchanged, under either class and any allow-list. (A NUL would end the C string; the NUL test at line 149 is dead.) |
| `Properties.ClassTestBeforeAllowList` | src/io_validate.c:155-179 | If the leftmost offending character fails its class, the class message is reported even when that character is also outside the allow-list |
| `Properties.ValidateStringIff` | src/io_validate.c:137-182 | A string strategy accepts if and only if three things hold: the length gate passes; every character that is not skipped is in the class; and, when the allow-list is non-empty, every such character is in it |
| `Properties.StringFailureNamesLeftmost` | src/io_validate.c:144-180 | When the length gate passes and validation fails, the diagnostic is the one for the leftmost offending character |
| `Properties.AlphaAcceptsLetters` | src/io_validate.c:155-161 | With no allow-list, letters and skipped characters within the bounds pass `VALIDATE_ALPHA` |
| `Properties.AlphaRejectsNonLetter` | src/io_validate.c:155-161 | One character that is neither a letter nor skipped makes `VALIDATE_ALPHA` fail |
| `Properties.EmptyInputPassesWithoutMinimum` | src/io_validate.c:144-182 | The empty string passes a string strategy whenever no positive minimum is set |
| `Properties.StringReadsOnlyCharacterKeys` | src/io_validate.c:113-169 | The string strategies depend only on `min_chars`, `max_chars` and `allowed_chars` |
| `Properties.NumericCheckOrder` | src/io_validate.c:66-88 | `VALIDATE_NUM` rejects non-numbers first and text over 64 characters second. Past those checks it accepts exactly when the value is in range, where a bound of 0 means no bound |
| `Properties.MaxOnlyMessageNamesZero` | src/io_validate.c:88-99 | With only `max_num` set, a value above it gets the two-bound message with minimum 0, while a negative value is accepted |
| `Properties.NumericReadsOnlyNumericBounds` | src/io_validate.c:84-85 | `VALIDATE_NUM` depends only on `min_num` and `max_num`, never on `min_chars`, `max_chars` or `allowed_chars` |
| `Properties.ZeroBoundIsNoBound` | src/io_validate.c:84-88 | A numeric bound written as "0" behaves exactly like an absent one |
| `Config.AbsentKeysReadAsDefaults` | src/io_validate.c:114-115 | Absent keys read as their defaults: no character bounds, an empty allow-list, no numeric bounds. An explicit "0" reads the same as an absent key |
| `CLib.AtoiOfIntToString` | src/io_validate.c:114-115 | `atoi` reads the decimal text of any integer back as that integer |
| `CLib.AtofOfIntToString` | src/io_validate.c:82-85 | `atof` reads the decimal text of any integer as that number |
| `Scenarios.ShortAlphaInput` | tests/test.c:13-21 | With `min_chars` 4 and `max_chars` 10 under `VALIDATE_ALPHA`, "ab\n" fails with "at least 4": the newline counts toward the length |
| `Scenarios.EmptyConfigAlphaNum` | tests/test.c:13-22 | With an empty table, "Test123" passes `VALIDATE_ALPHANUM` |
| `Scenarios.AllowListRejects` | tests/test.c:16-22 | With `allowed_chars` "abcd", "abXd" fails `VALIDATE_ALPHANUM` with "Invalid characters." |
| `Scenarios.NotANumberScenario` | src/io_validate.c:66-70 | Text that the number test rejects fails with "not a valid number" |
| `Scenarios.BelowRangeScenario` | tests/test.c:17-23 | With `min_num` 10 and `max_num` 1000, "5" fails with the two-bound message |
| `Scenarios.InRangeScenario` | tests/test.c:17-23 | With `min_num` 10 and `max_num` 1000, "50" passes |
| `Scenarios.MinOnlyScenario` | src/io_validate.c:88-93 | With only `min_num` 10, "5" fails with the minimum-only message |
| `Scenarios.ValidateTwice` | src/io_validate.c:50-186 | The engine keeps no state between calls: validating the same input twice gives the same result and the same diagnostic |

## Left out

- User-defined validation functions: `init_validate` accepts any function with the validator prototype. The model has only the three the library ships, as the `Strategy` enumeration.
- `malloc` failure in `init_validate` (a null result) and `release`: the constructor always succeeds, and memory is not modelled.
- The `buff == NULL` branch of `_validate_string`: `strlen` has already dereferenced the pointer by then, so the model requires a string.
- `is_number`: its library is not part of this model, so it is a parameter. The scenarios state what they assume of it.
- `atoi` and `atof` handle only white space, a sign, digits and, for `atof`, a fraction. Exponents, hexadecimal, `inf`/`nan`, overflow and double rounding are not modelled: values are exact integers and reals.
- `strlen` into `int buffsize`: truncation for strings longer than `INT_MAX` is not modelled.
- Message text: `%d` and `%.2f` formatting is not rendered. A `Diag` names the message and carries the numbers that would be printed.
- `ctype` classification outside ASCII, including negative `char` values passed to `isalpha`/`isalnum`: every byte of 128 and above (for example each byte of UTF-8 text) is one `char` and fails the class test, as in the "C" locale.
- The hashtable implementation. The table is a map behind a reference, read at each call, and `Config.Lookup` stands in for `get(key, default)`. Mutation from another thread during a call is not modelled.
- Console I/O in the test program (`io_fgets`, `printf`).
