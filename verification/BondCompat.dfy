/**
 The bond storage adapter of src/bond_compat.c: Secure Connections bonds are kept in the shorter
 record format of the earlier firmware, Legacy bonds in the full one.
 */
module BondCompat {

  type Bytes = seq<bv8>

  const SC_FLAG: bv8 := 0x10
  const LTK_P256: bv8 := 0x20
  const LEGACY_KEYS: bv8 := 0x05         // BT_KEYS_LTK | BT_KEYS_PERIPH_LTK
  const ALL_KEYS: bv8 := 0x3f
  const KEYS_PREFIX := "bt/keys/"

  // Lengths of the old record's fields, of the old record with its padding, and of the full record.
  datatype Format = Format(fields: nat, old_: nat, full: nat)

  predicate ValidFormat(f: Format) {
    4 < f.fields <= f.old_ < f.full
  }

  predicate IsBondKey(name: string) {
    |name| > |KEYS_PREFIX| && name[..|KEYS_PREFIX|] == KEYS_PREFIX
  }

  // A Secure Connections record: key size, flags, and the little-endian word of key types.
  predicate ScRecord(d: Bytes)
    requires |d| >= 4
  {
    7 <= d[0] <= 16 && d[1] & SC_FLAG != 0 && d[2] & LTK_P256 != 0 && d[2] & LEGACY_KEYS == 0
    && d[2] & !ALL_KEYS == 0 && d[3] == 0
  }

  function Zeros(n: nat): (z: Bytes)
    ensures |z| == n
  {
    seq(n, _ => 0)
  }

  // ---- Saving

  // What is written for a value.
  function Stored(f: Format, name: string, value: Bytes): (r: Bytes)
    requires ValidFormat(f)
  {
    if IsBondKey(name) && |value| == f.full && ScRecord(value)
    then value[..f.fields] + Zeros(f.old_ - f.fields)
    else value
  }

  /** `__wrap_settings_save_one`; `value` is null when a setting is deleted. */
  method SaveOne(f: Format, name: string, value: array?<bv8>, length: nat) returns (written: Bytes)
    requires ValidFormat(f) && (if value == null then length == 0 else length <= value.Length)
    ensures written == if value == null then [] else Stored(f, name, value[..length])
  {
    if value == null {
      return [];
    }
    if IsBondKey(name) && length == f.full && ScRecord(value[..length]) {
      var record := new bv8[f.old_](_ => 0);
      for i := 0 to f.fields
        invariant record[..i] == value[..i] && forall k :: i <= k < f.old_ ==> record[k] == 0
      {
        record[i] := value[i];
      }
      assert value[..length][..f.fields] == value[..f.fields];
      assert record[..] == value[..f.fields] + Zeros(f.old_ - f.fields);
      return record[..];
    }
    written := value[..length];
  }

  // ---- Loading

  // What the settings handler is given: nothing, or a length and the bytes it will read.
  datatype Loaded =
    | Refused                 // -EINVAL, the stored record is left alone
    | ReadError
    | Delivered(data: Bytes)

  // How a setting is being loaded: directly (raw), or by a handler whose subtree it may lie outside.
  datatype Load = Load(raw: bool, excluded: bool)

  // `got` is what the back end returns for a read of the stored record: all of it, a short read, or an error.
  datatype Read = Bytes(data: Bytes) | Failed

  predicate Transparent(f: Format, name: string, length: nat, load: Load) {
    !IsBondKey(name) || length == 0 || load.raw || load.excluded || length == f.full
  }

  function Expanded(f: Format, d: Bytes): (r: Bytes)
    requires ValidFormat(f) && |d| == f.old_
    ensures |r| == f.full
  {
    d[..f.fields] + Zeros(f.full - f.fields)
  }

  function LoadedAs(f: Format, name: string, length: nat, got: Read, load: Load): Loaded
    requires ValidFormat(f)
  {
    if Transparent(f, name, length, load) then (if got.Bytes? then Delivered(got.data) else ReadError)
    else if length != f.old_ then Refused
    else if got.Failed? then ReadError
    else if |got.data| != f.old_ || !ScRecord(got.data) then Refused
    else Delivered(Expanded(f, got.data))
  }

  /** The adapted branch of `__wrap_settings_call_set_handler`: reads, checks and extends in one buffer. */
  method CallSetHandler(f: Format, name: string, length: nat, got: Read, load: Load) returns (result: Loaded)
    requires ValidFormat(f)
    ensures result == LoadedAs(f, name, length, got, load)
  {
    if !IsBondKey(name) || length == 0 || load.raw || load.excluded || length == f.full {
      return if got.Bytes? then Delivered(got.data) else ReadError;
    }
    if length != f.old_ {
      return Refused;
    }
    if got.Failed? {
      return ReadError;
    }
    if |got.data| != f.old_ || !ScRecord(got.data) {
      return Refused;
    }
    var value := new bv8[f.full](i requires 0 <= i < f.full => if i < f.old_ then got.data[i] else 0);
    for i := f.fields to f.full
      invariant forall k :: 0 <= k < f.full ==>
                  value[k] == if f.fields <= k < i then 0 else if k < f.old_ then got.data[k] else 0
    {
      value[i] := 0;
    }
    assert value[..] == Expanded(f, got.data);
    var handed := ReadAdapted(value, f.full);
    result := Delivered(handed);
  }

  /** `read_adapted`: at most the whole record, however much is asked for. */
  method ReadAdapted(value: array<bv8>, length: nat) returns (data: Bytes)
    ensures data == value[..if length < value.Length then length else value.Length]
  {
    var n := if length < value.Length then length else value.Length;
    data := value[..n];
  }

  // ---- Round trips

  const NORMAL := Load(false, false)

  // What the host sees after saving and loading.
  function Reloaded(f: Format, name: string, value: Bytes): Loaded
    requires ValidFormat(f)
  {
    var stored := Stored(f, name, value);
    LoadedAs(f, name, |stored|, Read.Bytes(stored), NORMAL)
  }

  lemma ScPrefix(a: Bytes, b: Bytes)
    requires |a| >= 4 && |b| >= 4 && a[..4] == b[..4]
    ensures ScRecord(a) <==> ScRecord(b)
  {
  }

  // The name of a bond's setting, by the identity and address that follow the prefix.
  function BondName(id: string): string {
    "bt/keys/" + id
  }

  // A Secure Connections bond, bit by bit: an encryption key of 7 to 16 bytes, the SC flag, and of key types
  // the P-256 one (0x20) with at most identity and signing keys (0x02, 0x08, 0x10) beside it.
  ghost predicate SecureBond(d: Bytes)
    requires |d| >= 4
  {
    && d[0] in {7, 8, 9, 10, 11, 12, 13, 14, 15, 16} && d[1] / 16 % 2 == 1
    && d[2] in {0x20, 0x22, 0x28, 0x2a, 0x30, 0x32, 0x38, 0x3a} && d[3] == 0
  }

  // The old fields of the record, and nothing behind them.
  ghost predicate CutTo(f: Format, n: nat, record: Bytes, value: Bytes)
    requires ValidFormat(f) && f.fields <= |value| && f.fields <= n
  {
    |record| == n && record[..f.fields] == value[..f.fields] && forall k :: f.fields <= k < n ==> record[k] == 0
  }

  lemma SecureExactly(d: Bytes)
    requires |d| >= 4
    ensures ScRecord(d) <==> SecureBond(d)
  {
  }

  lemma IsBond(id: string)
    requires id != ""
    ensures IsBondKey(BondName(id))
  {
    assert BondName(id)[..|KEYS_PREFIX|] == "bt/keys/";
  }

  /**
   After any saves, a full bond record is stored in the old, shorter format exactly if it is a Secure
   Connections one, with its fields; any other is stored byte for byte.
   */
  lemma ShortenedExactly(f: Format, saves: seq<Save>, id: string, value: Bytes)
    requires ValidFormat(f) && id != "" && |value| == f.full
    ensures var stored := Store(f, saves + [Save(BondName(id), value)])[BondName(id)];
            && (|stored| == f.old_ <==> SecureBond(value))
            && (SecureBond(value) ==> CutTo(f, f.old_, stored, value))
            && (!SecureBond(value) ==> stored == value)
  {
    SecureExactly(value);
    IsBond(id);
    assert (saves + [Save(BondName(id), value)])[..|saves|] == saves;
  }

  /**
   A full bond record survives saving and loading: a Secure Connections one with everything past the old
   fields zeroed, any other byte for byte, so that no Legacy key is ever cut.
   */
  lemma BondRoundTrip(f: Format, id: string, value: Bytes)
    requires ValidFormat(f) && id != "" && |value| == f.full
    ensures !SecureBond(value) ==> Reloaded(f, BondName(id), value) == Delivered(value)
    ensures SecureBond(value) ==> match Reloaded(f, BondName(id), value)
                                  case Delivered(data) => CutTo(f, f.full, data, value)
                                  case _ => false
  {
    SecureExactly(value);
    IsBond(id);
    if SecureBond(value) {
      var stored := Stored(f, BondName(id), value);
      assert stored[..4] == value[..4];
      ScPrefix(stored, value);
      assert stored[..f.fields] == value[..f.fields];
    }
  }

  /** A Legacy key, or the lack of the SC flag or of a P-256 key, is enough for a record to be kept byte for byte. */
  lemma LegacyIsKept(f: Format, saves: seq<Save>, id: string, value: Bytes)
    requires ValidFormat(f) && id != "" && |value| == f.full
    requires value[2] & 0x04 != 0 || value[2] & 0x01 != 0 || value[1] & 0x10 == 0 || value[2] & 0x20 == 0
    ensures Store(f, saves + [Save(BondName(id), value)])[BondName(id)] == value
    ensures Reloaded(f, BondName(id), value) == Delivered(value)
  {
    assert !SecureBond(value);
    ShortenedExactly(f, saves, id, value);
    BondRoundTrip(f, id, value);
  }

  /**
   A bond stored in the old length is delivered exactly if all of it is read and it is a Secure Connections
   one: its fields, extended with zeros to the full length. Of any other length but the full one none is.
   */
  lemma OldDeliveredExactly(f: Format, id: string, length: nat, got: Read)
    requires ValidFormat(f) && id != "" && length != 0 && length != f.full
    ensures var loaded := LoadedAs(f, BondName(id), length, got, NORMAL);
            && (loaded.Delivered? <==> length == f.old_ && got.Bytes? && |got.data| == f.old_ && SecureBond(got.data))
            && (loaded.Delivered? ==> CutTo(f, f.full, loaded.data, got.data))
  {
    IsBond(id);
    if got.Bytes? && |got.data| == f.old_ {
      SecureExactly(got.data);
      assert Expanded(f, got.data)[..f.fields] == got.data[..f.fields];
    }
  }

  /** Other settings, empty and full records, and loads that promise raw bytes or pass a subtree by, are passed on as they are read. */
  lemma OthersPassThrough(f: Format, name: string, value: Bytes, load: Load)
    requires ValidFormat(f)
    requires (forall id :: id != "" ==> name != BondName(id)) || value == [] || |value| == f.full || load.raw || load.excluded
    ensures LoadedAs(f, name, |value|, Read.Bytes(value), load) == Delivered(value)
    ensures (forall id :: id != "" ==> name != BondName(id)) ==> Stored(f, name, value) == value
  {
    if IsBondKey(name) {
      assert name == BondName(name[|KEYS_PREFIX|..]);
    }
  }

  /** An old Secure Connections record, expanded and saved again, keeps its fields and loses only padding. */
  lemma OldRecordRoundTrip(f: Format, name: string, record: Bytes)
    requires ValidFormat(f) && IsBondKey(name) && |record| == f.old_ && ScRecord(record)
    ensures LoadedAs(f, name, f.old_, Read.Bytes(record), NORMAL) == Delivered(Expanded(f, record))
    ensures Stored(f, name, Expanded(f, record)) == record[..f.fields] + Zeros(f.old_ - f.fields)
  {
  }

  /** Once loaded, a record no longer changes: saving and loading again yields the same record. */
  lemma ReloadIsStable(f: Format, name: string, value: Bytes)
    requires ValidFormat(f) && IsBondKey(name) && |value| == f.full
    ensures Reloaded(f, name, value).Delivered?
    ensures var seen := Reloaded(f, name, value).data; |seen| == f.full && Reloaded(f, name, seen) == Delivered(seen)
  {
  }

  // ---- A run of saves

  datatype Save = Save(name: string, value: Bytes)

  // The settings store after the saves, in order.
  function Store(f: Format, saves: seq<Save>): map<string, Bytes>
    requires ValidFormat(f)
  {
    if saves == [] then map[]
    else
      var s := saves[|saves| - 1];
      Store(f, saves[..|saves| - 1])[s.name := Stored(f, s.name, s.value)]
  }

  ghost predicate FullBonds(f: Format, saves: seq<Save>) {
    forall k :: 0 <= k < |saves| && IsBondKey(saves[k].name) ==> |saves[k].value| == f.full
  }

  // What a bond stored as `data` was saved from, as far as the format can tell.
  ghost predicate StoredWell(f: Format, data: Bytes)
    requires ValidFormat(f)
  {
    || (|data| == f.full && !ScRecord(data))
    || (|data| == f.old_ && ScRecord(data) && data[f.fields..] == Zeros(f.old_ - f.fields))
  }

  /**
   After any run of saves with full-length bonds, every stored bond is either a full Legacy record or a
   Secure Connections record of the old format with clean padding, and the loader delivers each of them.
   */
  lemma {:induction false} StoreHoldsTwoFormats(f: Format, saves: seq<Save>, name: string)
    requires ValidFormat(f) && FullBonds(f, saves) && IsBondKey(name) && name in Store(f, saves)
    ensures var data := Store(f, saves)[name];
            StoredWell(f, data) && LoadedAs(f, name, |data|, Read.Bytes(data), NORMAL).Delivered?
  {
    var last := saves[|saves| - 1];
    if last.name == name {
      if ScRecord(last.value) {
        var stored := Stored(f, name, last.value);
        assert stored[..4] == last.value[..4];
        ScPrefix(stored, last.value);
        assert stored[f.fields..] == Zeros(f.old_ - f.fields);
      }
    } else {
      StoreHoldsTwoFormats(f, saves[..|saves| - 1], name);
    }
  }
}
