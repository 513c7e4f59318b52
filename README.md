# Builder error catalogue, in Dafny

This project models the error catalogue of the Builder developer tool
(`packages/builder/src/internal/core/errors-list.ts`). The catalogue has three parts:

- the code prefix `ERROR_PREFIX` ("ABLDR") and `getErrorCode`, which joins the prefix with a
  descriptor's number to give its external code ("ABLDR8" for `INVALID_CONFIG`);
- `ERROR_RANGES`: five categories (GENERAL, NETWORK, TASK_DEFINITIONS, ARGUMENTS, PLUGINS),
  each with an inclusive interval of error numbers and a title;
- `ERRORS`: maps each of those categories to an object of named error descriptors.
  In the source a descriptor has four fields: a number, a message template, a title and a
  Markdown description. The model keeps the first three.

The source holds only constant tables and one formatter. Nothing checks at run time the
numbering rules the tables follow:

- every range is well formed;
- the ranges are disjoint;
- every number lies inside its category's range;
- no number is used twice.

This project states those rules as predicates over any pair of tables. The numbering of the
entries is a parameter of the predicates, so a table in which two different keys share a number
is one they can describe and reject. The rules are then proved of the literal catalogue, whose
numbering is `Number`.

Files:

- `wrappers.dfy`: `Option`, the result of a parse that can fail.
- `decimal.dfy`: `NatToString`, which renders a number the way the template literal in
  `getErrorCode` does. The file also holds the inverse, `ParseDecimal`, and the round-trip lemmas in both
  directions: parse after render, and render after parse of a canonical numeral.
- `errors_list.dfy`: the descriptor record, `GetErrorCode` and its inverse `ParseErrorCode`,
  the `Category` datatype and the range table. It also holds the descriptor table, the
  invariant predicates and the lemmas about the literal tables.

Categories form an enumerated datatype. Both tables are `map`s keyed by it, so "the tables have
the same keys" is a real statement (`SameCategories`).

The error keys of the source (`NOT_INSIDE_PROJECT`, `INVALID_CONFIG`, ...) follow the nesting
of `ERRORS`. Each category's descriptor object becomes an enumerated datatype with one
constructor per key, written in PascalCase (`GeneralError.InvalidConfig`). An `ErrorName`
pairs such a key with its category (`GeneralName(InvalidConfig)`), and `CategoryOf` gives that
category back. The functions `Number`, `Message` and `Title` give each key's descriptor fields
as the source lists them. `Descriptor` assembles them into an `ErrorDescriptor`.

Each category lists its keys as a `seq<ErrorName>` in source order, as a JavaScript object
literal keeps its keys. That makes TASK_DEFINITIONS' order visible: its numbers 210 to 212
come before 205 to 209.

There is no validation routine or error report for these invariants. `errors-list.ts` has no
run-time check and no aggregated configuration-error report, so the model has none either.

## Model

| member | source | states |
|---|---|---|
| `Decimal.NatToString` | packages/builder/src/internal/core/errors-list.ts:14 | the rendering of a number is a canonical decimal numeral (digits only, no leading zero); it starts with '0' exactly when the number is 0 |
| `Decimal.DigitsValueOfNatToString` | packages/builder/src/internal/core/errors-list.ts:14 | the value of the digits of the rendering of `n` is `n` |
| `Decimal.ParseNatToString` | packages/builder/src/internal/core/errors-list.ts:14 | parsing the rendering of `n` gives back `n` |
| `Decimal.NatToStringOfCanonical` | packages/builder/src/internal/core/errors-list.ts:14 | every canonical numeral is the rendering of its value, so the renderings are exactly the canonical numerals |
| `Decimal.NatToStringInjective` | packages/builder/src/internal/core/errors-list.ts:14 | two numbers have the same rendering if and only if they are equal |
| `ErrorsList.GetErrorCode` | packages/builder/src/internal/core/errors-list.ts:2-15 | a code starts with "ABLDR" and is longer than it; the rest is a canonical decimal numeral; stripping the prefix and parsing the rest gives back the descriptor's number |
| `ErrorsList.ErrorCodeInjective` | packages/builder/src/internal/core/errors-list.ts:13-15 | two descriptors have the same code if and only if they have the same number |
| `ErrorsList.ErrorCodeCanonical` | packages/builder/src/internal/core/errors-list.ts:13-15 | a string that is "ABLDR" followed by a canonical numeral that parses to a descriptor's number is exactly that descriptor's code |
| `ErrorsList.GlobalUniquenessFromRanges` | packages/builder/src/internal/core/errors-list.ts:17-33 | for any tables and any numbering of the entries, the numbers are unique across the whole table when three things hold: the ranges are disjoint, every number lies in its own category's range, and no category repeats a number |
| `ErrorsList.OverlappingRangesAllowRepeats` | packages/builder/src/internal/core/errors-list.ts:17-33 | the disjointness of the ranges is needed: with two overlapping ranges, two categories can each keep their numbers in range and distinct and still share a number |
| `ErrorsList.CatalogueCategoriesMatch` | packages/builder/src/internal/core/errors-list.ts:17-33 | the descriptor table and the range table have the same keys, and every category is a key of both |
| `ErrorsList.CatalogueRangesWellFormed` | packages/builder/src/internal/core/errors-list.ts:17-27 | every range has min <= max |
| `ErrorsList.CatalogueRangesDisjoint` | packages/builder/src/internal/core/errors-list.ts:17-27 | the ranges of two different categories do not intersect |
| `ErrorsList.GeneralNumbers` | packages/builder/src/internal/core/errors-list.ts:34-136 | the GENERAL errors are numbered 1 to 11, in listing order |
| `ErrorsList.NetworkNumbers` | packages/builder/src/internal/core/errors-list.ts:137-254 | the NETWORK errors are numbered 100 to 112, in listing order |
| `ErrorsList.TaskDefinitionNumbers` | packages/builder/src/internal/core/errors-list.ts:255-381 | the TASK_DEFINITIONS errors are listed as 200 to 204, then 210 to 212, then 205 to 209 |
| `ErrorsList.ArgumentNumbers` | packages/builder/src/internal/core/errors-list.ts:382-473 | the ARGUMENTS errors are numbered 300 to 311, in listing order |
| `ErrorsList.PluginNumbers` | packages/builder/src/internal/core/errors-list.ts:474-512 | the PLUGINS errors are numbered 800 to 803, in listing order |
| `ErrorsList.CatalogueNumbersInRange` | packages/builder/src/internal/core/errors-list.ts:17-512 | every descriptor's number lies inside the range of the category it is listed under |
| `ErrorsList.ConsecutiveNumbersDistinct` | packages/builder/src/internal/core/errors-list.ts:34-512 | for any list and any numbering, a list numbered consecutively from a base uses no number twice |
| `ErrorsList.TaskDefinitionNumbersDistinct` | packages/builder/src/internal/core/errors-list.ts:255-381 | TASK_DEFINITIONS uses no number twice, although 210 to 212 are listed before 205 to 209 |
| `ErrorsList.CatalogueNumbersDistinctPerCategory` | packages/builder/src/internal/core/errors-list.ts:34-512 | no category lists the same number twice, TASK_DEFINITIONS' out-of-order numbers included |
| `ErrorsList.CatalogueNumbersGloballyUnique` | packages/builder/src/internal/core/errors-list.ts:34-512 | no two entries of the whole catalogue share a number, whether or not they are in the same category |
| `ErrorsList.CatalogueListedOnce` | packages/builder/src/internal/core/errors-list.ts:34-512 | no error key of the literal table is listed twice, in one category or across two |
| `ErrorsList.CatalogueValid` | packages/builder/src/internal/core/errors-list.ts:17-512 | the literal tables keep all the invariants together: same keys, well-formed and disjoint ranges, numbers in range, globally unique numbers, and every key listed once |
| `ErrorsList.GeneralKeysListed` | packages/builder/src/internal/core/errors-list.ts:34-136 | every GENERAL key is listed in the GENERAL list |
| `ErrorsList.NetworkKeysListed` | packages/builder/src/internal/core/errors-list.ts:137-254 | every NETWORK key is listed in the NETWORK list |
| `ErrorsList.TaskDefinitionKeysListed` | packages/builder/src/internal/core/errors-list.ts:255-381 | every TASK_DEFINITIONS key is listed in the TASK_DEFINITIONS list |
| `ErrorsList.ArgumentKeysListed` | packages/builder/src/internal/core/errors-list.ts:382-473 | every ARGUMENTS key is listed in the ARGUMENTS list |
| `ErrorsList.PluginKeysListed` | packages/builder/src/internal/core/errors-list.ts:474-512 | every PLUGINS key is listed in the PLUGINS list |
| `ErrorsList.CatalogueDeclaredUnder` | packages/builder/src/internal/core/errors-list.ts:29-512 | every entry of the descriptor table is listed under the category that declares it |
| `ErrorsList.EveryNameListed` | packages/builder/src/internal/core/errors-list.ts:29-512 | a key is listed under a category if and only if that category declares it, so every key is in the table, under its own category only |
| `ErrorsList.CatalogueCodesUnique` | packages/builder/src/internal/core/errors-list.ts:13-15 | two different entries of the catalogue never have the same error code |
| `ErrorsList.InvalidConfigCode` | packages/builder/src/internal/core/errors-list.ts:96-97 | INVALID_CONFIG is the eighth GENERAL error, and its code is "ABLDR8" |
| `ErrorsList.NumberEightCode` | packages/builder/src/internal/core/errors-list.ts:13-15 | any descriptor numbered 8 has the code "ABLDR8" |

## Data

The constants, datatypes and functions that hold the catalogue itself. They have no contract of
their own; the lemmas in the table above state what they keep.

| member | source | holds |
|---|---|---|
| `ErrorsList.ErrorPrefix` | packages/builder/src/internal/core/errors-list.ts:2 | the code prefix "ABLDR" |
| `ErrorsList.ErrorDescriptor` | packages/builder/src/internal/core/errors-list.ts:4-11 | the descriptor record, without `description` |
| `ErrorsList.ParseErrorCode` | packages/builder/src/internal/core/errors-list.ts:13-15 | the inverse of `GetErrorCode`: strips "ABLDR" and parses the rest as decimal; its laws are in `GetErrorCode`, `ErrorCodeInjective` and `ErrorCodeCanonical` |
| `ErrorsList.Category` | packages/builder/src/internal/core/errors-list.ts:17-27 | the five category keys |
| `ErrorsList.ErrorRanges` | packages/builder/src/internal/core/errors-list.ts:17-27 | each category's min, max and title |
| `ErrorsList.GeneralError` | packages/builder/src/internal/core/errors-list.ts:34-136 | the GENERAL keys, one constructor each, in PascalCase |
| `ErrorsList.NetworkError` | packages/builder/src/internal/core/errors-list.ts:137-254 | the NETWORK keys |
| `ErrorsList.TaskDefinitionError` | packages/builder/src/internal/core/errors-list.ts:255-381 | the TASK_DEFINITIONS keys |
| `ErrorsList.ArgumentError` | packages/builder/src/internal/core/errors-list.ts:382-473 | the ARGUMENTS keys |
| `ErrorsList.PluginError` | packages/builder/src/internal/core/errors-list.ts:474-512 | the PLUGINS keys |
| `ErrorsList.ErrorName` | packages/builder/src/internal/core/errors-list.ts:29-512 | a key paired with the category that declares it |
| `ErrorsList.CategoryOf` | packages/builder/src/internal/core/errors-list.ts:29-512 | the category that declares a key |
| `ErrorsList.Number` | packages/builder/src/internal/core/errors-list.ts:34-512 | each key's `number` |
| `ErrorsList.Message` | packages/builder/src/internal/core/errors-list.ts:34-512 | each key's `message` |
| `ErrorsList.Title` | packages/builder/src/internal/core/errors-list.ts:34-512 | each key's `title` |
| `ErrorsList.Descriptor` | packages/builder/src/internal/core/errors-list.ts:34-512 | each key's descriptor, assembled from `Number`, `Message` and `Title` |
| `ErrorsList.GeneralErrors` | packages/builder/src/internal/core/errors-list.ts:34-136 | the GENERAL keys in source order |
| `ErrorsList.NetworkErrors` | packages/builder/src/internal/core/errors-list.ts:137-254 | the NETWORK keys in source order |
| `ErrorsList.TaskDefinitionErrors` | packages/builder/src/internal/core/errors-list.ts:255-381 | the TASK_DEFINITIONS keys in source order |
| `ErrorsList.ArgumentErrors` | packages/builder/src/internal/core/errors-list.ts:382-473 | the ARGUMENTS keys in source order |
| `ErrorsList.PluginErrors` | packages/builder/src/internal/core/errors-list.ts:474-512 | the PLUGINS keys in source order |
| `ErrorsList.Errors` | packages/builder/src/internal/core/errors-list.ts:29-513 | the descriptor table: each category's list of keys |

## Left out

- `description`: the Markdown description of each descriptor (lines 8-10) is not carried. It is documentation prose with no behaviour. `message` and `title` are carried as uninterpreted strings.
- Message templates: the `%name%` placeholders in `message` are not substituted. The substitution helper `applyErrorMessageTemplate` that the comment at line 6 names is not part of this model.
- `GetErrorCode`: descriptor numbers are `nat`, not JavaScript's floating-point `number`. So the model does not cover negative or fractional numbers. Nor does it cover the exponent notation ("1e+21") that JavaScript uses from 10^21 upward. Every number in the catalogue is a small non-negative integer.
- String keys: the type at lines 29-33 allows any string as an error key, and a lookup `ERRORS[category][name]` by an arbitrary string. The model's keys are `ErrorName` values instead, and the literal catalogue's numbering `Number` is a function of the key. So indexing by a string that is not a key is not modelled, and the literal table cannot give one key two numbers in two categories. A `seq<ErrorName>` can still list a key twice; `CatalogueListedOnce` proves that the literal table does not.
- Key order of `ERROR_RANGES` and `ERRORS`: both tables are maps, so the order of the category keys is not kept. The order of the errors inside a category is kept.
- Load-time validation that reports every violation: `errors-list.ts` has no such code. The invariants are proved about the constant tables instead.
- Raising, catching and printing these errors (CLI, network, plugin loading), and generating documentation from the titles: that code lives outside `errors-list.ts`.
