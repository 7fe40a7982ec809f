/** The file names the YAML (Alice) fixture generator gives to what it writes. */
module YamlFixtureGenerator {
  import opened PhpBuiltins
  import opened Dumper

  const Extension: string := ".yml"

  /** The conventional name of the single file that holds every fixture. */
  const SingleFileName: string := "fixtures.yml"

  /**
   * `createFilename`: one file per entity is named after the naming
   * strategy's fixture name with ".yml" appended and its first character
   * lower-cased; the single file is always "fixtures.yml".
   */
  function CreateFilename(fixtureName: ClassMetadata -> string, metadata: ClassMetadata, multipleFiles: bool)
    : (r: string)
    ensures multipleFiles ==> |r| == |fixtureName(metadata)| + 4
    ensures multipleFiles ==> EndsWith(r, Extension)
    ensures multipleFiles ==>
      r[0] == LowerChar((fixtureName(metadata) + Extension)[0]) &&
      r[1..] == (fixtureName(metadata) + Extension)[1..]
    ensures !multipleFiles ==> r == SingleFileName
  {
    if multipleFiles then
      var name := fixtureName(metadata) + Extension;
      assert |fixtureName(metadata)| == 0 ==> name == Extension;
      LcFirst(name)
    else
      SingleFileName
  }

  /** The single file's name depends neither on the entity nor on the naming strategy. */
  lemma SingleFileNameIsConstant(fixtureName: ClassMetadata -> string, otherFixtureName: ClassMetadata -> string,
                                 a: ClassMetadata, b: ClassMetadata)
    ensures CreateFilename(fixtureName, a, false) == CreateFilename(otherFixtureName, b, false)
  {
  }

  /** The YAML generator as `dump` uses it, over a naming strategy and a fixture renderer. */
  function YamlGenerator(fixtureName: ClassMetadata -> string, generate: ClassMetadata -> string): Generator {
    Generator(generate, (metadata, multipleFiles) => CreateFilename(fixtureName, metadata, multipleFiles))
  }

  /**
   * With the YAML generator, single-file mode writes "fixtures.yml", whichever
   * entity was the last one kept.
   */
  lemma YamlSingleFileIsFixturesYml(filters: Filters, metadata: seq<ClassMetadata>,
                                    fixtureName: ClassMetadata -> string, generate: ClassMetadata -> string)
    ensures forall w :: w in Writes(false, filters, metadata, YamlGenerator(fixtureName, generate)) ==>
      w.0 == SingleFileName
  {
  }

  /** With the YAML generator, every file written in multi-file mode ends in ".yml". */
  lemma YamlMultipleFilesEndInYml(filters: Filters, metadata: seq<ClassMetadata>,
                                  fixtureName: ClassMetadata -> string, generate: ClassMetadata -> string)
    ensures forall w :: w in Writes(true, filters, metadata, YamlGenerator(fixtureName, generate)) ==>
      EndsWith(w.0, Extension)
  {
    var generator := YamlGenerator(fixtureName, generate);
    var kept := Kept(filters, metadata);
    MultipleFilesWrites(filters, metadata, generator);
    forall w | w in Writes(true, filters, metadata, generator)
      ensures EndsWith(w.0, Extension)
    {
      var k :| 0 <= k < |kept| && Writes(true, filters, metadata, generator)[k] == w;
      assert w.0 == CreateFilename(fixtureName, kept[k], true);
    }
  }
}
