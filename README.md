# Fuel common helpers, modelled in Dafny

This project models four classes of the FuelPHP `common` package and proves properties of
the models:

- `Fuel\Common\Date` (`dates.dfy`, module `Dates`). This is a mutable moment: a Unix
  timestamp with a timezone attached. It shares class-wide settings: the default timezone,
  the GMT offset, the strftime encoding, the format aliases and the last parse diagnostics.
  - The statics are the class `Settings`. The moment is the class `Date`.
  - The constructor is `NewDate`. It first applies the configuration (`Settings.ApplyConfig`),
    then normalises the time argument (`Normalise`), then parses and attaches a zone
    (`Materialise`).
  - `format()` is `Date.Format`, specified by the function `Formatted`.
  - `createFromFormat()` is `CreateFromFormat`, specified by `ParseStage`.
  - The platform's date library is a `Platform` value: the timezone database, UTC offsets,
    the parsers, strftime, the token formatter, calendar arithmetic, `time()` and charset
    conversion.
- `Fuel\Common\Inflector` (`inflector.dfy`, module `Inflection`).
  - Ordinal suffixes.
  - First-match rule tables for pluralize and singularize, with the uncountable-word check.
    A rule is a (matches, rewrite) pair. The last two plural rules, `/s$/` and `/$/`, are
    concrete.
  - camelize, humanize and demodulize.
  - Namespace splitting.
  - wordsToUpper and classify.
  - Case mapping is ASCII (`ascii.dfy`).
- `FuelPHP\Common\DataContainer` (`data_container.dfy`, module `Containers`). This is a PHP
  array behind a read-only flag.
  - A PHP array is modelled as ordered entries with distinct keys plus the next free
    integer index (`PhpArray`).
  - The flat array operations are `Lookup`, `Put`, `Append` and `Remove`.
  - The container is the class `DataContainer`.
- `Fuel\Common\Table\Render` (`table_render.dfy`, module `TableRender`). This is the traversal
  that renders a table's body, header and footer rows.
  - A subclass's abstract methods are the function fields of a `Renderer`.
  - The three `build*` methods share the nested loop `BuildSection`. That loop is proved
    against `RenderedSection`.

`wrappers.dfy` holds `Option`, `Result` and `Outcome`. They model the source's `null`/`false`
returns and its exceptions.

## Model

| member | source | states |
|---|---|---|
| Dates.ResolveSpec | src/Date.php:78-83 | a DateTimeZone object is used as is; a name resolves through the timezone database or throws InvalidTimezone with that name, and in no other case |
| Dates.RequestedZone | src/Date.php:222-234 | a null timezone argument selects the default timezone; any other argument is resolved |
| Dates.LookupFormat | src/Date.php:236-239 | a format name that is a key of the pattern table is replaced by its pattern, otherwise the format is used literally; the result is always a pattern or the input |
| Dates.SecondsInterval | src/Date.php:303-311 | an integer n becomes a seconds-only interval of abs(n) seconds, inverted iff n < 0, standing for exactly n seconds |
| Dates.IntervalOf | src/Date.php:301-312 | add/sub's argument: a number becomes a clock-only interval of that signed length, a DateInterval is used as is, anything else is refused |
| Dates.Shift | src/Date.php:314 | adding a clock-only interval moves the instant by exactly its signed seconds |
| Dates.Unshift | src/Date.php:344 | subtracting a clock-only interval moves the instant back by exactly its signed seconds |
| Dates.AddThenSubRestores | src/Date.php:299-350 | add(n) moves the instant to ts + n, and sub(n) from there gives back ts |
| Dates.Normalise | src/Date.php:150-160 | null or 'now' becomes '@' + (now + gmtOffset); a number n becomes '@' + n; other non-numeric text is kept; a DateTime is kept |
| Dates.Materialise | src/Date.php:162-187 | a DateTime is stored without parsing and without touching the diagnostics; otherwise the requested zone (default when null) must resolve, '@n' always stores n, free text succeeds iff the zone resolves and the parser accepts the text, storing what the parser gives, and the requested zone is attached |
| Dates.ConfiguredZone | src/Date.php:134-143 | the default timezone installed by a construction is the configured one, else the system one |
| Dates.NumericTimeIsStored | src/Date.php:150-187 | constructing from a number stores exactly that timestamp, in the requested zone |
| Dates.Settings.constructor | src/Date.php:37-58 | initial class state: no diagnostics, no default timezone, no encoding, GMT offset 0, no patterns |
| Dates.Settings.DefaultTimezone | src/Date.php:76-89 | a non-null argument is resolved and becomes the default (an unresolvable name throws and changes nothing); the default is returned |
| Dates.Settings.ApplyConfig | src/Date.php:122-148 | gmtOffset is stored if set; the encoding is stored upper-cased; the default timezone becomes the configured or the system zone (or the call throws); patterns are replaced wholesale, not merged |
| Dates.Settings.LastErrors | src/Date.php:65-68 | getLastErrors() returns the diagnostics recorded last |
| Dates.TargetZone | src/Date.php:512-530 | format()'s output zone: `true` gives the default zone, a name is resolved, a DateTimeZone is used as is, a falsy value keeps the original zone |
| Dates.Correction | src/Date.php:538-542 | the delta is the target zone's offset minus the original zone's offset at the same instant, so it is 0 when the two zones are the same |
| Dates.Encoded | src/Date.php:552-555 | strftime output is transcoded only when an encoding is set |
| Dates.Rendered | src/Date.php:545-556 | a format without `%` goes to the token formatter on the unchanged instant in the attached zone; a format with `%` goes to strftime on the instant plus the delta |
| Dates.FormattedDialects | src/Date.php:497-556 | format() end to end: alias lookup, then the token path in the attached zone or strftime on ts + offset(target) - offset(original) |
| Dates.Formatted | src/Date.php:497-556 | format() as written: it throws exactly when given a timezone name that does not resolve, and then with that name; in the moment's own zone it renders with no correction |
| Dates.FormattedIntended | src/Date.php:497-556 | the corrected format(): the same failure cases as the written one, and the same rendering in the moment's own zone |
| Dates.FormatTrueKeepsOriginalZone | src/Date.php:512-517 | with `true` the token formatter renders in the original zone rather than the default one (see Findings) |
| Dates.FormattedIntendedUsesTarget | src/Date.php:512-550 | in the corrected format() the token formatter always renders in the selected zone; it agrees with the written one for a name or a falsy argument |
| Dates.ReverseShift | src/Date.php:264-276 | the reverse correction subtracts the target zone's offset at the parsed instant, whatever its sign |
| Dates.ParseStage | src/Date.php:241-277 | a format without `%`, or one strptime rejects, goes straight to the format parser; a mktime failure throws; otherwise the text (shifted when the default zone's offset at the reference date is non-zero) is parsed as 'U' and moved back by the target zone's offset |
| Dates.Date.GetTimestamp | src/Date.php:592-595 | the stored instant |
| Dates.Date.GetTimezone | src/Date.php:602-605 | the attached zone |
| Dates.Date.GetOffset | src/Date.php:582-585 | the attached zone's UTC offset at the stored instant |
| Dates.Date.Add | src/Date.php:299-321 | a non-interval argument throws; otherwise the instant moves by the interval and the object is returned, or `false` with nothing changed |
| Dates.Date.Sub | src/Date.php:329-351 | as add, with the interval subtracted |
| Dates.Date.SetTimestamp | src/Date.php:433-441 | the instant is replaced and the object returned |
| Dates.Date.SetTimezone | src/Date.php:451-469 | null selects the default zone, a name is resolved (or throws and changes nothing); only the attached zone changes |
| Dates.Date.Format | src/Date.php:497-565 | the result is Formatted of the current state; afterwards the timestamp and the attached zone are what they were before the call |
| Dates.Date.ToString | src/Date.php:202-205 | the 'local' alias rendered in the attached zone with no correction; the state is unchanged |
| Dates.NewDate | src/Date.php:120-188 | configuration effects happen first (also when construction then throws); a successful construction stores Materialise's moment and records the parse diagnostics |
| Dates.CreateFromFormat | src/Date.php:220-290 | zone resolution, alias lookup and ParseStage; on success a new Date holds the parsed instant in the target zone, the default timezone is reset to the system one by `new static`, and the diagnostics are cleared; `false` records the parser's diagnostics; a bad target zone, a mktime failure or an unresolvable system zone throws and leaves the diagnostics and default zone alone; the GMT offset, encoding and patterns never change |
| Inflection.Inflector.PluralRules | src/Inflector.php:35-54 | the plural table is the class-specific rules followed by '/s$/' and '/$/'; both anchor with PCRE's `$`, which also matches before a final newline |
| Inflection.AppendAtEnds | src/Inflector.php:53 | preg_replace('/$/', 's') adds an s at the end and, for a word ending in a newline, also just before it ("word\n" becomes "words\ns") |
| Inflection.Ordinalize | src/Inflector.php:128-157 | a non-number is returned unchanged; a number is followed by its suffix |
| Inflection.OrdinalSuffixRules | src/Inflector.php:135-156 | for n >= 0, each of st, nd, rd and th is chosen iff its rule (n % 100 in 11..13, n % 10 in 1..3) says so |
| Inflection.NegativeOrdinalsEndInTh | src/Inflector.php:135-156 | under PHP's truncating `%` every negative number gets `th` |
| Inflection.PhpRem | src/Inflector.php:135 | PHP's `%` truncates: it is the Euclidean remainder for a non-negative dividend and minus the remainder of the negated dividend otherwise, so it keeps the dividend's sign and is below the modulus in absolute value |
| Inflection.OrdinalSuffix | src/Inflector.php:135-156 | the suffix is one of st, nd, rd, th; it is th when the remainder modulo 100 is 11 to 13 or the last digit is not 1, 2 or 3 |
| Inflection.FirstMatch | src/Inflector.php:182-189 | the position of the first matching rule in table order: it matches and no earlier rule does; none only when no rule matches |
| Inflection.RewriteFirst | src/Inflector.php:182-189 | the word rewritten by a rule that matches with no earlier rule matching, or unchanged when no rule matches |
| Inflection.ApplyFirstRule | src/Inflector.php:182-189 | the loop applies exactly the first matching rule, once; with no match the word is unchanged |
| Inflection.Pluralize | src/Inflector.php:166-192 | a count of 1 or an uncountable word is returned unchanged; otherwise the first matching plural rule applies |
| Inflection.Singularize | src/Inflector.php:200-219 | an uncountable word is returned unchanged; otherwise the first matching singular rule applies |
| Inflection.PluralRulesAlwaysMatch | src/Inflector.php:52-53 | some plural rule always matches a countable word; when no earlier rule matches, a word that ends in s (also before a final newline) is unchanged, and any other gains an s wherever `$` matches |
| Inflection.UncountableInAnyCase | src/Inflector.php:456-459 | isCountable ignores case: for any uncountable list, a word is countable iff its lower-cased form is |
| Inflection.DefaultUncountableWords | src/Inflector.php:26-29 | with the class's own list, "Fish" and "MONEY" are uncountable and "fishes" is countable |
| Inflection.CamelizeRest | src/Inflector.php:230-236 | the callback after the start never lengthens the text and never empties a non-empty one |
| Inflection.Camelize | src/Inflector.php:228-238 | camelize never lengthens its input, and upper-cases a first character that is not a newline |
| Inflection.CamelizeRestSkipsPlainText | src/Inflector.php:230-236 | text without underscores passes through camelize unchanged |
| Inflection.CamelizeNamePart | src/Inflector.php:230-236 | camelize of a single word only upper-cases its first character |
| Inflection.CamelizeJoinedStep | src/Inflector.php:230-236 | camelize of "w_rest" is w capitalised followed by camelize of rest |
| Inflection.CamelizeJoined | src/Inflector.php:228-238 | camelize of underscore-joined words upper-cases the first character of every word and drops the underscores |
| Inflection.Humanize | src/Inflector.php:335-346 | the separator is `-` if asked for, else `_`; every occurrence becomes a space and none is left; with lowercase the first character is upper-cased first |
| Inflection.LastColonsEnd | src/Inflector.php:354-357 | the end of the last "::" before a bound: there is "::" just before it and none after it |
| Inflection.Demodulize | src/Inflector.php:354-357 | the result is the input from a cut point on; the cut is 0 or just after a "::", lies within the first line, and no "::" of the first line ends after it |
| Inflection.DemodulizeIdempotent | src/Inflector.php:354-357 | demodulize is idempotent: what it leaves has no "::" left on its first line |
| Inflection.TrimLeadingBackslashes | src/Inflector.php:367 | a suffix of the input; everything cut is a backslash and the result does not start with one |
| Inflection.TrimTrailingBackslashes | src/Inflector.php:367 | a prefix of the input; everything cut is a backslash and the result does not end with one |
| Inflection.TrimBackslashes | src/Inflector.php:367 | trim($name, '\\'): a contiguous part of the input with only backslashes cut on either side, neither starting nor ending with one |
| Inflection.LastBackslash | src/Inflector.php:368 | strrpos of a backslash: a backslash with none after it, or none at all |
| Inflection.Denamespace | src/Inflector.php:365-374 | the class name is a suffix of the trimmed name and has no backslash |
| Inflection.GetNamespace | src/Inflector.php:381-390 | the namespace is a prefix of the trimmed name, empty or ending in a backslash |
| Inflection.NamespaceSplit | src/Inflector.php:365-389 | after trimming backslashes, getNamespace and denamespace concatenate to the trimmed name; the class name has no backslash; the namespace is empty or ends in one, and is non-empty iff the trimmed name has a backslash |
| Inflection.UcWords | src/Inflector.php:417 | ucwords upper-cases the first character and each one after a whitespace delimiter, and changes nothing else |
| Inflection.WordsToUpper | src/Inflector.php:415-418 | the length is kept, and with a separator other than a space no space is left |
| Inflection.WordsToUpperAt | src/Inflector.php:415-418 | at each position wordsToUpper gives the separator for a separator or a space, the upper-cased character at a word start, and the character otherwise |
| Inflection.Classify | src/Inflector.php:427-431 | classify is wordsToUpper of the singularised name (of the name itself when not forced) |
| Containers.IndexOf | src/FuelPHP/Common/DataContainer.php:149 | the position of an entry with the key, or none when no entry has it |
| Containers.Lookup | src/FuelPHP/Common/DataContainer.php:160-163 | a value is found iff the key is present, and it is the value stored under that key |
| Containers.Put | src/FuelPHP/Common/DataContainer.php:187 | after storing, the key maps to the value and every other key maps to what it did; an existing key keeps its place and only its entry changes, a new one is appended and may raise the next free index |
| Containers.Append | src/FuelPHP/Common/DataContainer.php:182 | `$data[] = v` appends v under the next free index, which then moves up by one |
| Containers.AppendChangesNothingElse | src/FuelPHP/Common/DataContainer.php:180-185 | the appended index was not in use; it now holds v, and every other key keeps its value |
| Containers.Remove | src/FuelPHP/Common/DataContainer.php:206 | the key is gone, every other key keeps its value; a present key's entry is cut out and the others keep their order; an absent key leaves the array as it was |
| Containers.EntryCountIsKeyCount | src/FuelPHP/Common/DataContainer.php:289-292 | the number of entries is the number of distinct keys |
| Containers.Unwrapped | src/FuelPHP/Common/DataContainer.php:112-121 | each container argument is replaced by its contents and each array argument is kept, in order |
| Containers.DataContainer.constructor | src/FuelPHP/Common/DataContainer.php:46-50 | the data and the read-only flag are the given ones |
| Containers.DataContainer.GetContents | src/FuelPHP/Common/DataContainer.php:78-81 | the stored array |
| Containers.DataContainer.All | src/FuelPHP/Common/DataContainer.php:215-218 | the same array as getContents() |
| Containers.DataContainer.IsReadOnly | src/FuelPHP/Common/DataContainer.php:135-138 | the stored read-only flag |
| Containers.DataContainer.SetContents | src/FuelPHP/Common/DataContainer.php:60-70 | read-only: throws and leaves the data alone; otherwise getContents() and all() return exactly the new data |
| Containers.DataContainer.SetReadOnly | src/FuelPHP/Common/DataContainer.php:90-95 | isReadOnly() then reports the given flag |
| Containers.DataContainer.Merge | src/FuelPHP/Common/DataContainer.php:105-127 | read-only: throws and leaves the data alone; otherwise the data becomes arr_merge of the container's own data followed by the unwrapped arguments |
| Containers.DataContainer.Has | src/FuelPHP/Common/DataContainer.php:147-150 | true iff the key is one of the data's keys |
| Containers.DataContainer.Get | src/FuelPHP/Common/DataContainer.php:160-163 | the stored value when the key is present, else the default |
| Containers.DataContainer.Set | src/FuelPHP/Common/DataContainer.php:173-190 | read-only: throws and leaves the data alone; a null key appends at the next free index; a key stores the value under it |
| Containers.DataContainer.Delete | src/FuelPHP/Common/DataContainer.php:199-207 | read-only: throws and leaves the data alone; otherwise the key is removed and the result says whether it was there |
| Containers.DataContainer.OffsetExists | src/FuelPHP/Common/DataContainer.php:227-230 | agrees with has() |
| Containers.DataContainer.OffsetGet | src/FuelPHP/Common/DataContainer.php:240-246 | the stored value; a missing key throws OutOfBoundsException |
| Containers.DataContainer.OffsetSet | src/FuelPHP/Common/DataContainer.php:255-258 | exactly set(), with its read-only guard |
| Containers.DataContainer.OffsetUnset | src/FuelPHP/Common/DataContainer.php:267-270 | exactly delete(), with its read-only guard |
| Containers.DataContainer.Entries | src/FuelPHP/Common/DataContainer.php:278-281 | iteration yields the entries in insertion order: distinct keys, each key of the data exactly once, each with its stored value |
| Containers.DataContainer.Count | src/FuelPHP/Common/DataContainer.php:289-292 | the number of distinct keys; 0 iff the container is empty |
| TableRender.RenderedCells | src/Table/Render.php:60-63 | one rendered cell per source cell, in order |
| TableRender.RenderedSection | src/Table/Render.php:53-68 | one rendered row per source row, in order, each built from its own rendered cells; an empty section gives an empty list |
| TableRender.BuildSection | src/Table/Render.php:53-68 | the nested loops produce exactly one output per row, in order, each from the row and one cell() result per cell, in order |
| TableRender.BuildRows | src/Table/Render.php:50-69 | body rows go through cell and row |
| TableRender.BuildHeaders | src/Table/Render.php:78-97 | header rows go through headerCell and headerRow only |
| TableRender.BuildFooters | src/Table/Render.php:106-125 | footer rows go through footerCell and footerRow only |
| TableRender.RenderTable | src/Table/Render.php:31-41 | container receives the table and the body, header and footer lists in that argument order, and its result is returned |
| TableRender.SectionSplits | src/Table/Render.php:55-66 | rows are rendered independently: the rendering of two row lists joined is the two renderings joined |

## Left out

- The platform date library is not modelled: the timezone database, UTC offsets, `new DateTime` parsing, `DateTime::createFromFormat`, strptime/mktime, strftime, `DateTime::format`, calendar interval arithmetic, `time()`, `date_default_timezone_get()`, utf8_encode and iconv. Each is a field of `Platform`.
- The createFromFormat strptime branch is modelled only as far as it goes. The code discards mktime's result, adds the delta to the input text (`Platform.addToText`), and indexes an integer for 'unparsed'. `Platform.strptime` stands for this whole stage. The delta is always set in that branch, so the reverse shift always follows.
- Date: `modify`, `setDate`, `setISODate`, `setTime`, `diff`, `getDateTime`, `__set_state` and `__wakeup` are left out. They are platform calls or serialisation plumbing.
- Dates.Normalise: PHP's is_numeric test is not modelled. The caller passes every numeric `$time`, numeric strings such as "1341144000" included, as `Numeric(n)`, and `Text` carries non-numeric strings only (src/Date.php:157-160).
- Dates.NewDate: an existing DateTime is stored as a copy, so aliasing with the caller's object is not modelled. Numeric times are integers; fractional `'@'` timestamps are not modelled.
- Dates.CreateFromFormat: requires a default timezone. Every constructor installs one or throws (src/Date.php:134-142) and nothing resets it to null, so a Date exists only once one is set. Without it the source fails only in the strptime branch, which calls `getOffset` on null (src/Date.php:254).
- Dates.Date.SetTimezone: requires a default timezone, for the same reason. Without it only a null argument fails, by passing null to `DateTime::setTimezone` (src/Date.php:457).
- Dates.Date.Format: requires a default timezone, for the same reason. Without it only the argument `true` fails, by calling `getOffset` on null (src/Date.php:514, 538-542).
- Dates.Date.ToString: requires a default timezone, for the same reason; it never needs one, because it formats in the attached zone.
- Dates.Date.Add: a numeric argument that is not an integer ("1.5") is truncated by `intval` (src/Date.php:305); the argument here is already an integer.
- Dates.Date.Sub: the same `intval` truncation as Add is not modelled (src/Date.php:335).
- Dates.Date.Add: a DateInterval with calendar units is left to the platform; only clock-only intervals move the instant by a known amount.
- Dates.Date.Sub: the same as Add.
- Dates.Settings.ApplyConfig: a `patterns` value that is not an array is not modelled; the configuration holds a map or nothing.
- Inflection: `ascii`, `friendlyTitle`, `underscore`, `tableize` and `foreignKey` are left out. They depend on the injected config, security and str services or on html_entity_decode.
- Inflection: regular-expression rules other than '/s$/' and '/$/' are abstract (matches, rewrite) pairs; the regex engine is not modelled. For '/s$/' and '/$/', `$` matches at the end and before a final newline, as PCRE does without the D modifier.
- Inflection.Pluralize: the count is an integer, so the strictness of `$count === 1` against a string "1" is not modelled.
- Inflection.Ordinalize: whether the input is numeric, and its integer value, are given by the caller (`NumberArg(text, value)`); PHP's numeric-string and float conversions are not modelled.
- Inflection.Humanize: `$lowercase === true` is a boolean here; other truthy values are not modelled.
- Inflection.WordsToUpper: the separator is a single character (`sep: char`); multi-character separators are not modelled.
- Inflection.WordsToUpperAt: the same single-character restriction as WordsToUpper.
- Inflection.Demodulize: the pattern's `.` does not cross a newline, as modelled; no other PCRE options are involved.
- Ascii: case mapping is ASCII only, as `strtoupper` and `strtolower` do in the C locale; the str service's multibyte `lower` and `ucfirst` are not modelled.
- Containers: keys are flat. The dot-notation nesting of arr_get, arr_set, arr_has and arr_delete is not modelled. arr_merge is a function parameter of Merge. PHP's conversion of numeric string keys to integers is not modelled.
- Containers.DataContainer.Merge: arguments that are neither arrays nor containers are not modelled.
- Containers.DataContainer.SetReadOnly: the `(bool)` cast of an arbitrary value is not modelled; the flag is a boolean.
- Containers.DataContainer.constructor: the source stores `$readOnly` without a `(bool)` cast (src/FuelPHP/Common/DataContainer.php:49), so a non-boolean value is kept as given and later read for its truthiness; here the flag is a boolean.
- Integers are unbounded. PHP's 64-bit integers are not modelled: `time() + gmtOffset` overflowing to a float before the '@' prefix (src/Date.php:153), and `$a[] = $v` failing when the next free index is PHP_INT_MAX (Containers.Append), are not captured.
- Containers: PHP 8.3's next-index rule after negative keys is not modelled; the next free index starts at 0.
- TableRender.RenderTable: the renderer's methods are pure functions. The order in which the source calls them (every body row before the headers and footers, each row's cells before the row) and any state a subclass keeps between calls are not modelled.
- Table rendering: the `Table` and `Row` classes are not part of this model. A row is its sequence of cells, and the concrete HTML of Render subclasses is not modelled.

## Findings

| source | as written | input that shows it | evidently intended | confidence | as-written member | corrected member |
|---|---|---|---|---|---|---|
| src/Date.php:512-517 | `format($f, true)` sets `$timezone` to the default zone but never attaches it, so a token format (no `%`) renders in the object's own zone; the same holds for a DateTimeZone argument | a moment at timestamp 0 attached to UTC, default zone America/New_York, `format('Y-m-d', true)`: rendered in UTC | render in the selected output zone, as the comment "output in the application default timezone" says | medium, not executed | Dates.FormatTrueKeepsOriginalZone | Dates.FormattedIntendedUsesTarget |

`Dates.Formatted` models format() as written, and `Dates.FormattedIntended` is the corrected
definition. `Dates.Date.Format` keeps the behaviour as written, because it models the method
itself. The two definitions agree for a timezone name and for a falsy argument.
