/**
 * The first cartridge (src/cartridge.rs): the bytes of the cartridge file,
 * handed whole to the flat memory bus, and the symbols from the `.sym` file
 * beside it.  Reading the files is left to the caller: the cartridge is
 * given their contents.
 */
module EarlyCartridge {
  import opened Bits
  import opened Wrappers
  import Symbols

  /** `Cartridge::new`: the file's bytes, and the text of the `.sym` file if there is one. */
  datatype Cartridge = Cartridge(data: seq<u8>, symFile: Option<string>)
  {
    /** `data`: the whole file. */
    function Data(): (r: seq<u8>)
      ensures |r| == |data| && forall i :: 0 <= i < |r| ==> r[i] == data[i]
    {
      data
    }

    /** `symbols`: none without a `.sym` file, the parsed labels with one; the outer `None` is the parser's panic. */
    function SymbolTable(): (r: Option<Option<map<Symbols.Loc, string>>>)
      ensures symFile.None? ==> r == Some(None)
      ensures symFile.Some? ==> (r.Some? <==> Symbols.Parse(symFile.value).Some?)
      ensures symFile.Some? && r.Some? ==> r.value == Symbols.Parse(symFile.value)
    {
      Symbols.Load(symFile)
    }
  }
}
