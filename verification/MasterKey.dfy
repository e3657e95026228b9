/** Loading or creating the one master key row when a process starts (store.go). */
module MasterKey {
  import opened Results
  import opened Envelopes
  import opened KeyProvider

  datatype KeyRow = KeyRow(version: string, material: Bytes)

  const FILE_VERSION := "file-v1"
  const DATABASE_VERSION := "db-v1"

  predicate ValidRow(row: KeyRow) {
    |row.material| == KEY_BYTES && row.version != ""
  }

  function ProviderOf(row: KeyRow): Provider {
    Provider(row.version, map[row.version := row.material])
  }

  /** The bootstrap file: none named, one that cannot be used, or 32 decoded bytes. */
  datatype Bootstrap = NoFile | BadFile | File(material: Bytes)

  predicate ReadableFile(boot: Bootstrap) {
    boot.File? ==> |boot.material| == KEY_BYTES
  }

  /** Which key row a start settles on: the stored one, an imported one, or a new one for a database without data. */
  function Settled(stored: Option<KeyRow>, boot: Bootstrap, hasData: bool, random: Bytes): Result<KeyRow> {
    match stored
    case Some(row) => if ValidRow(row) then Ok(row) else Err(Internal)
    case None =>
      match boot
      case BadFile => Err(Internal)
      case File(material) => Ok(KeyRow(FILE_VERSION, material))
      case NoFile => if hasData then Err(Internal) else Ok(KeyRow(DATABASE_VERSION, random))
  }

  /** The table with at most one row. */
  class KeyTable {
    var row: Option<KeyRow>

    constructor ()
      ensures row == None
    {
      row := None;
    }

    method LoadKeyMaterial(boot: Bootstrap) returns (key: Result<array<byte>>)
      requires ReadableFile(boot)
      ensures boot.File? ==> key.Ok? && fresh(key.value) && key.value[..] == boot.material
      ensures !boot.File? ==> key.Err?
    {
      if !boot.File? {
        return Err(Internal);
      }
      var buffer := new byte[|boot.material|](i requires 0 <= i < |boot.material| => boot.material[i]);
      assert buffer[..] == boot.material;
      key := Ok(buffer);
    }

    /**
     * The provider keeps its own copy, so clearing the buffers the key passed through does not
     * clear the provider's key.
     */
    method InitializeMasterKey(boot: Bootstrap, hasData: bool,
        generated: array<byte>) returns (r: Result<MemoryKeyProvider>)
      requires ReadableFile(boot) && generated.Length == KEY_BYTES
      modifies this, generated
      ensures match Settled(old(row), boot, hasData, old(generated[..]))
        case Err(_) => r.Err? && row == old(row)
        case Ok(settled) =>
          && row == Some(settled) && r.Ok?
          && r.value.Valid() && fresh(r.value.Repr()) && r.value.Model() == ProviderOf(settled)
      ensures match old(row)
        case Some(stored) =>
          && row == Some(stored)
          && (r.Ok? <==> |stored.material| == 32 && stored.version != "")
          && (r.Ok? ==> r.value.Model() == Provider(stored.version, map[stored.version := stored.material]))
        case None =>
          match boot
          case BadFile => r.Err? && row == None
          case File(material) =>
            && r.Ok? && row == Some(KeyRow("file-v1", material))
            && r.value.Model() == Provider("file-v1", map["file-v1" := material])
          case NoFile =>
            if hasData then r.Err? && row == None
            else
              && r.Ok? && row == Some(KeyRow("db-v1", old(generated[..])))
              && r.value.Model() == Provider("db-v1", map["db-v1" := old(generated[..])])
      ensures row.Some? && old(row).None? && boot.NoFile? ==> forall i | 0 <= i < generated.Length :: generated[i] == 0
    {
      var version := "";
      var key := generated;
      var stored := row;
      if stored.Some? {
        version := stored.value.version;
        var material := stored.value.material;
        key := new byte[|material|](i requires 0 <= i < |material| => material[i]);
        assert key[..] == material;
      } else {
        if !boot.NoFile? {
          var loaded := LoadKeyMaterial(boot);
          if loaded.Err? {
            return Err(Internal);
          }
          key := loaded.value;
          version := FILE_VERSION;
        } else {
          if hasData {
            return Err(Internal);
          }
          version := DATABASE_VERSION;
        }
      }
      if key.Length != KEY_BYTES || version == "" {
        Clear(key);
        return Err(Internal);
      }
      var inserted := KeyRow(version, key[..]);
      var keys := map[version := key];
      var provider := NewMemoryKeyProvider(version, keys);
      assert Contents(keys) == map[version := key[..]];
      assert provider.Ok?;
      Clear(key);
      row := Some(inserted);
      r := provider;
    }
  }
}
