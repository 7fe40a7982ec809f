# fixture-dumper: the dump controller, in Dafny

This project models the run controller of the PHP library fixture-dumper,
which turns Doctrine entities into Alice fixture files. It covers three parts:

- `AbstractDumper`: three optional filter lists (namespaces, a whitelist
  and a blacklist of short class names), the switch between one file per
  entity and a single file, the entity filter `skipEntity`, the list
  normalisation `getNormalizedList` and the `dump` loop itself.
- `YamlFixtureGenerator::createFilename`: how a YAML fixture file is named.
- `YamlVisitor`: how a reference and an embedded object are rendered in YAML.

Files:

- `wrappers.dfy`: `Option`, which stands for PHP's `null`.
- `php_builtins.dfy`: the PHP functions the core relies on, with their
  properties: `strtolower` (ASCII), `lcfirst`, `implode` and `in_array`.
- `abstract_dumper.dfy` (module `Dumper`): the class `AbstractDumper`, plus
  the pure functions it is proved against.
  - `SkipEntity` is the filter.
  - `Kept` gives the entities the loop does not skip, in dump order.
  - `Writes` gives the (file name, content) pairs one `dump` hands to
    `writeFixture`.
- `yaml_fixture_generator.dfy` and `yaml_visitor.dfy`: the YAML generator
  and visitor.

Modelling choices:

- The dumper's state is a class whose fields are updated in place.
  - `dumpMultipleFiles` is a plain field.
  - The three lists are `Option<seq<string>>` fields, since PHP's `null`
    means "never set" and is not the same as an empty array.
  - Every call to `writeFixture` appends to the ghost log `written`.
- `Dump` is proved against `Writes`: the new log is the old log followed by
  `Writes(mode, filters, getDumpOrder(allMetadata), generator)`. The
  behaviour promised by the source is proved about `Writes` as lemmas:
  - multi-file mode writes once per kept entity, in order;
  - single-file mode writes at most once, under the last kept entity's name,
    with the fixtures joined by a blank line;
  - a skipped entity is never written.
- Collaborators the core only calls are parameters:
  - `getDumpOrder` is a function value;
  - the generator is a pair of function values (`generate`, `createFileName`);
  - the naming strategy's `fixtureName` is a function value;
  - the parent visitor's `visitReference` is a function value.
- A reflection class is represented only by the namespace name and short
  name that the filter reads.
- Filtering is `AbstractDumper::skipEntity` (AbstractDumper.php:196-225)
  and is modelled as `SkipEntity`.

## Model

| member | source | states |
|---|---|---|
| Dumper.AbstractDumper.constructor | src/Sp/FixtureDumper/AbstractDumper.php:73-79 | a new dumper writes one file per entity, has no namespace list, whitelist or blacklist set, and has written nothing |
| Dumper.AbstractDumper.SetDumpMultipleFiles | src/Sp/FixtureDumper/AbstractDumper.php:122-125 | the mode becomes the given flag and nothing else changes |
| Dumper.AbstractDumper.ShouldDumpMultipleFiles | src/Sp/FixtureDumper/AbstractDumper.php:130-133 | reports the current mode |
| Dumper.AbstractDumper.AddNamespace | src/Sp/FixtureDumper/AbstractDumper.php:140-146 | the namespace list becomes the old list (or an empty one if unset) with the namespace appended |
| Dumper.AbstractDumper.SetNamespaces | src/Sp/FixtureDumper/AbstractDumper.php:152-157 | an array replaces the namespace list outright; any other argument leaves it unchanged |
| Dumper.AbstractDumper.AddToWhitelist | src/Sp/FixtureDumper/AbstractDumper.php:164-175 | the whitelist becomes the old list (or an empty one) followed by the given names, or by the single scalar |
| Dumper.AbstractDumper.AddToBlacklist | src/Sp/FixtureDumper/AbstractDumper.php:177-188 | the same for the blacklist |
| Dumper.SkipEntity | src/Sp/FixtureDumper/AbstractDumper.php:196-225 | `skipEntity`: the namespace check, then the whitelist, then the blacklist, each returning early; `SkipEntityExactly` states what it decides |
| Dumper.NormalizedList | src/Sp/FixtureDumper/AbstractDumper.php:251-257 | `getNormalizedList` as a function: the list has the same length, and by `NormalizedListAt` each entry is lower-cased where it stands |
| Dumper.Kept | src/Sp/FixtureDumper/AbstractDumper.php:95-99 | the entities the `dump` loop does not skip, never more than it is given; `KeptMembership` and `KeptAppend` fix which ones and in what order |
| Dumper.Writes | src/Sp/FixtureDumper/AbstractDumper.php:95-116 | the (file name, content) writes of one `dump` over the dump order; `MultipleFilesWrites` and `SingleFileWrites` state them for each mode |
| PhpBuiltins.StrToLower | src/Sp/FixtureDumper/AbstractDumper.php:209 | `strtolower` keeps the length; by `StrToLowerAt` each character is ASCII-lowered in place |
| PhpBuiltins.InArray | src/Sp/FixtureDumper/AbstractDumper.php:201 | `in_array` on strings; `InArrayMembership` proves it is exactly sequence membership |
| Dumper.AbstractDumper.WriteFixture | src/Sp/FixtureDumper/AbstractDumper.php:233-243 | exactly one (file name, content) pair is appended to the write log |
| Dumper.AbstractDumper.DumpEntity | src/Sp/FixtureDumper/AbstractDumper.php:95-110 | one loop pass: a skipped entity changes nothing; otherwise its fixture is collected, the file name becomes `createFileName(entity, mode)`, and in multi-file mode exactly that write is made |
| Dumper.AbstractDumper.Dump | src/Sp/FixtureDumper/AbstractDumper.php:86-117 | the log grows by exactly `Writes` of the current mode and filters over the dump order |
| Dumper.MultipleFilesWrites | src/Sp/FixtureDumper/AbstractDumper.php:95-104 | in multi-file mode, write k is the k-th kept entity's fixture under its own multi-file name; there are as many writes as kept entities; a skipped entity is never kept |
| Dumper.MultipleFilesWritesAppend | src/Sp/FixtureDumper/AbstractDumper.php:95-110 | multi-file writes happen entity by entity: dumping a then b writes what dumping a + b writes |
| Dumper.SingleFileWrites | src/Sp/FixtureDumper/AbstractDumper.php:105-116 | single-file mode writes at most once, and exactly once iff some entity is not skipped; the content is the kept fixtures joined by "\n\n", and the name is `createFileName(e, false)` for the last entity e in dump order that is not skipped |
| Dumper.SingleFileContentBounds | src/Sp/FixtureDumper/AbstractDumper.php:112-115 | the single file starts with the first kept fixture and ends with the last |
| Dumper.GetNormalizedList | src/Sp/FixtureDumper/AbstractDumper.php:251-257 | the in-place loop yields the list with every entry lower-cased, same length and order |
| Dumper.NormalizedListAt | src/Sp/FixtureDumper/AbstractDumper.php:253-255 | entry k of the normalized list is `strtolower` of entry k |
| Dumper.NormalizedListIdempotent | src/Sp/FixtureDumper/AbstractDumper.php:251-257 | normalizing twice is the same as normalizing once |
| Dumper.NormalizedListMembership | src/Sp/FixtureDumper/AbstractDumper.php:208-210 | a lower-cased name is in the normalized list iff it matches some entry ignoring case |
| Dumper.SkipEntityExactly | src/Sp/FixtureDumper/AbstractDumper.php:196-225 | an entity is skipped iff one of three holds: the namespace list is set and lacks its namespace; the whitelist is set and has no case-insensitive match for its short name; the blacklist is set and has one |
| Dumper.UnfilteredSkipsNothing | src/Sp/FixtureDumper/AbstractDumper.php:199-224 | with no list set, no entity is skipped |
| Dumper.EmptyNamespaceListSkipsAll | src/Sp/FixtureDumper/AbstractDumper.php:199-204 | a namespace list set to the empty array skips every entity |
| Dumper.EmptyWhitelistSkipsAll | src/Sp/FixtureDumper/AbstractDumper.php:206-213 | a whitelist set to the empty array skips every entity |
| Dumper.SkipIgnoresShortNameCase | src/Sp/FixtureDumper/AbstractDumper.php:206-222 | two entities of one namespace whose short names differ only in letter case are filtered alike |
| Dumper.KeptPrefix | src/Sp/FixtureDumper/AbstractDumper.php:95-99 | the entities kept among the first n of the dump order number at most n |
| Dumper.KeptPrefixExtend | src/Sp/FixtureDumper/AbstractDumper.php:95-99 | entities later in the order do not change what is kept among the earlier ones |
| Dumper.KeptSnoc | src/Sp/FixtureDumper/AbstractDumper.php:95-99 | one more entity extends the kept entities by itself unless it is skipped |
| Dumper.KeptAppend | src/Sp/FixtureDumper/AbstractDumper.php:95-99 | filtering distributes over concatenation, so the kept entities keep dump order |
| Dumper.KeptMembership | src/Sp/FixtureDumper/AbstractDumper.php:95-99 | an entity is kept iff it is in the dump order and not skipped |
| Dumper.UnfilteredKeepsAll | src/Sp/FixtureDumper/AbstractDumper.php:95-99 | with no list set, every entity is kept, in dump order |
| Dumper.KeptEmptyIffAllSkipped | src/Sp/FixtureDumper/AbstractDumper.php:95-99 | nothing is kept iff every entity is skipped |
| Dumper.KeptLastIsLastNotSkipped | src/Sp/FixtureDumper/AbstractDumper.php:95-107 | the last kept entity is the last entity of the order that is not skipped |
| Dumper.FixturesAt | src/Sp/FixtureDumper/AbstractDumper.php:101-109 | collected fixture k is the fixture generated for the k-th kept entity |
| Dumper.PerEntityWritesAt | src/Sp/FixtureDumper/AbstractDumper.php:101-104 | multi-file write k names and holds the k-th kept entity |
| Dumper.PerEntityWritesAppend | src/Sp/FixtureDumper/AbstractDumper.php:101-104 | per-entity writes distribute over concatenation |
| PhpBuiltins.StrToLowerAt | src/Sp/FixtureDumper/AbstractDumper.php:209 | `strtolower` keeps the length and lower-cases each character where it stands |
| PhpBuiltins.StrToLowerIdempotent | src/Sp/FixtureDumper/AbstractDumper.php:209 | `strtolower` applied twice is `strtolower` applied once |
| PhpBuiltins.StrToLowerConcat | src/Sp/FixtureDumper/AbstractDumper.php:209 | `strtolower` distributes over concatenation |
| PhpBuiltins.LowerCharLowers | src/Sp/FixtureDumper/AbstractDumper.php:209 | a lowered character is never upper-case, and lowering changes a character iff it is upper-case |
| PhpBuiltins.InArrayMembership | src/Sp/FixtureDumper/AbstractDumper.php:201 | `in_array` on strings is sequence membership |
| PhpBuiltins.LcFirst | src/Sp/FixtureDumper/Generator/Alice/YamlFixtureGenerator.php:22 | `lcfirst` keeps the length and the tail and lowers only the first character |
| PhpBuiltins.Implode | src/Sp/FixtureDumper/AbstractDumper.php:113 | `implode` of one piece is that piece; of none it is the empty string |
| PhpBuiltins.ImplodeLength | src/Sp/FixtureDumper/AbstractDumper.php:113 | the joined length is the pieces' total length plus one separator between each pair |
| PhpBuiltins.ImplodeConcat | src/Sp/FixtureDumper/AbstractDumper.php:113 | joining a + b is joining a, the separator, then joining b |
| PhpBuiltins.ImplodeEnds | src/Sp/FixtureDumper/AbstractDumper.php:113 | the joined text starts with the first piece and ends with the last |
| YamlFixtureGenerator.CreateFilename | src/Sp/FixtureDumper/Generator/Alice/YamlFixtureGenerator.php:19-26 | multi-file: the fixture name plus ".yml", four characters longer, ending in ".yml", with only the first character lower-cased; single file: always "fixtures.yml" |
| YamlFixtureGenerator.SingleFileNameIsConstant | src/Sp/FixtureDumper/Generator/Alice/YamlFixtureGenerator.php:25 | the single file's name depends neither on the entity nor on the naming strategy |
| YamlFixtureGenerator.YamlSingleFileIsFixturesYml | src/Sp/FixtureDumper/Generator/Alice/YamlFixtureGenerator.php:25 | with the YAML generator, every single-file-mode write is named "fixtures.yml" |
| YamlFixtureGenerator.YamlMultipleFilesEndInYml | src/Sp/FixtureDumper/Generator/Alice/YamlFixtureGenerator.php:21-23 | with the YAML generator, every multi-file-mode write has a name ending in ".yml" |
| YamlVisitor.VisitReference | src/Sp/FixtureDumper/Converter/Alice/YamlVisitor.php:24-27 | the rendering is the parent's rendering prefixed by '@', one character longer |
| YamlVisitor.ReferenceRoundTrip | src/Sp/FixtureDumper/Converter/Alice/YamlVisitor.php:24-27 | stripping the '@' from a rendered reference gives back the parent's rendering |
| YamlVisitor.VisitReferenceInjective | src/Sp/FixtureDumper/Converter/Alice/YamlVisitor.php:24-27 | two references render alike iff the parent renders them alike |
| YamlVisitor.VisitObject | src/Sp/FixtureDumper/Converter/Alice/YamlVisitor.php:32-36 | an embedded object always renders as `null` |

## Left out

- File system work in `writeFixture` is not modelled; the log records only
  the (file name, content) pair. Left out are the directory check and
  `mkdir`, the path argument and joining it with `DIRECTORY_SEPARATOR`,
  `file_put_contents`, and `prepareForWrite`, which belongs to the generator.
- The `$format` lookup in the generators map (`get($format)->get()`, which
  throws for an unknown format) is not modelled. Nor are the navigator and
  manager handed to the generator, or the `$options` array passed through
  to `generate`. The generator is a parameter of `Dump` instead.
- `getAllMetadata` (the Doctrine metadata factory) is a parameter of
  `Dump`, and so is the abstract `getDumpOrder`; neither is modelled.
- The constructor's collaborators (object manager, handler registry,
  generators map) are stored and never read by the modelled code, so the
  model's constructor takes no arguments.
- PHP's loose comparison in `in_array` is modelled as exact string
  equality. The two differ only for numeric strings such as "1e1" and "10",
  which are not namespace or class names.
- Dumper.AbstractDumper.AddToWhitelist and Dumper.AbstractDumper.AddToBlacklist
  model only list (integer-keyed) arrays, whose names `array_merge` appends.
  For an array with string keys, PHP's `array_merge` replaces an earlier
  name under a repeated key. For example, `addToWhitelist(['a' => 'Foo'])`
  followed by `addToWhitelist(['a' => 'Bar'])` leaves only `Bar`, where the
  model keeps both names. Non-string scalars are not modelled either: list
  elements are strings.
- `setDumpMultipleFiles` takes a bool; PHP's truthiness of other values is
  not modelled.
- `strtolower` lowers ASCII letters only, as PHP 8.2 and later do. Older
  PHP versions with a locale that lowers other bytes are not modelled.
  `lcfirst` is modelled the same way.
- `YamlFixtureGenerator::prepareData` (Symfony `Yaml::dump`) and
  `getDefaultVisitor` are not modelled. The naming strategy's
  `fixtureName` and the parent visitor's `visitReference` are function
  parameters.
- Dumper.AbstractDumper.Dump treats `generate`, `createFileName` and
  `writeFixture` as total: it never fails. In PHP an exception from any of
  them ends `dump` early. One example is `Filesystem::mkdir` at
  AbstractDumper.php:237. After such an exception, the multi-file writes
  already made for earlier entities stay, and single-file mode writes
  nothing. `MultipleFilesWritesAppend` describes the writes of such a prefix
  of the dump order, but the model does not describe the failure itself.
- The mode is read once before the `dump` loop, where the source reads `$this->dumpMultipleFiles` on every pass. Nothing in the
  loop changes the mode, so the two agree.
