/**
  A permission set for a role or a channel overwrite: one boolean flag per
  named permission, and the `bitwise` number that packs them, one bit per
  permission. The flags are what is stored; `bitwise` is computed from them on
  every read and, when written, overwrites every flag of the active table.
*/
module Permissions {
  import opened Wrappers
  import opened Bits
  import opened Decimal
  import opened PermissionTables

  /** The attribute key the constructor defaults besides the table's names. */
  const BITWISE_KEY := "bitwise"

  function Names(t: Table): set<string>
  {
    set k | 0 <= k < |t| :: t[k].name
  }

  /** `array_keys($permissions)` */
  function NameList(t: Table): (ns: seq<string>)
    ensures |ns| == |t| && forall k :: 0 <= k < |t| ==> ns[k] == t[k].name
  {
    seq(|t|, k requires 0 <= k < |t| => t[k].name)
  }

  /** Every name of the table has a flag. */
  predicate Covers(t: Table, f: map<string, bool>)
  {
    forall k :: 0 <= k < |t| ==> t[k].name in f
  }

  /** Some entry of the table with bit `i` has its flag set. */
  predicate FlagAt(t: Table, f: map<string, bool>, i: nat)
    requires Covers(t, f)
  {
    exists k :: 0 <= k < |t| && t[k].bit == i && f[t[k].name]
  }

  /** Some entry of the table uses bit `i`. */
  predicate UsesBit(t: Table, i: nat)
  {
    exists k :: 0 <= k < |t| && t[k].bit == i
  }

  /** The `bitwise` number of the flags `f`: the OR of `1 << bit` over the table's true flags, in table order. */
  function Encode(t: Table, f: map<string, bool>): nat
    requires Covers(t, f)
  {
    if t == [] then 0
    else
      var e := t[|t| - 1];
      Or(Encode(t[..|t| - 1], f), if f[e.name] then Pow2(e.bit) else 0)
  }

  /** Every bit the table uses. */
  function Mask(t: Table): nat
  {
    if t == [] then 0 else Or(Mask(t[..|t| - 1]), Pow2(t[|t| - 1].bit))
  }

  /** The flags after writing `bitwise` as the number `v`: each table flag becomes bit `bit` of `v`. */
  function Decoded(t: Table, f: map<string, bool>, v: nat): map<string, bool>
  {
    if t == [] then f
    else Decoded(t[..|t| - 1], f, v)[t[|t| - 1].name := Bit(v, t[|t| - 1].bit)]
  }

  /**
    Writing `v` gives every table name a flag, sets it to the entry's bit of `v`,
    and leaves every other attribute as it was.
  */
  lemma {:induction false} DecodedFlags(t: Table, f: map<string, bool>, v: nat)
    requires NamesDistinct(t)
    ensures Decoded(t, f, v).Keys == f.Keys + Names(t)
    ensures forall k :: 0 <= k < |t| ==> Decoded(t, f, v)[t[k].name] == Bit(v, t[k].bit)
    ensures forall n :: n in f && n !in Names(t) ==> Decoded(t, f, v)[n] == f[n]
  {
    if t != [] {
      var p, e := t[..|t| - 1], t[|t| - 1];
      assert forall k :: 0 <= k < |p| ==> p[k] == t[k];
      DecodedFlags(p, f, v);
      NamesOfSnoc(t);
      var d := Decoded(p, f, v);
      forall k | 0 <= k < |t|
        ensures Decoded(t, f, v)[t[k].name] == Bit(v, t[k].bit)
      {
        if k < |p| {
          assert p[k].name != e.name;
          assert d[p[k].name] == Bit(v, p[k].bit);
        }
      }
    }
  }

  lemma NamesOfSnoc(t: Table)
    requires t != []
    ensures Names(t) == Names(t[..|t| - 1]) + {t[|t| - 1].name}
  {
    var p := t[..|t| - 1];
    forall n | n in Names(t)
      ensures n in Names(p) + {t[|t| - 1].name}
    {
      var k :| 0 <= k < |t| && t[k].name == n;
      if k < |p| {
        assert p[k] == t[k];
      }
    }
    forall n | n in Names(p)
      ensures n in Names(t)
    {
      var k :| 0 <= k < |p| && p[k].name == n;
      assert t[k] == p[k];
    }
  }

  /** The two kinds of PHP build the codec distinguishes. */
  datatype Build =
    | X86Gmp  // 32-bit integers; `Bitwise::$is_32_gmp` holds and GMP does the bit work
    | X64     // `PHP_INT_SIZE === 8`: native integers and shifts

  /** What `bitwise` is read as or written with: a PHP integer or a base-10 string. */
  datatype BitwiseValue = IntValue(n: nat) | StringValue(s: string)

  /**
    The number `setBitwiseAttribute` tests bits of. A 64-bit build first casts a
    string with `(int)`; on a 32-bit build the string goes to `Bitwise::test`
    as it is, read here as the number its digits spell.
  */
  function Numeric(build: Build, value: BitwiseValue): nat
  {
    match value
    case IntValue(n) => n
    case StringValue(s) => if build == X64 then CastToInt(s) else DigitsValue(LeadingDigits(s))
  }

  // ---------------------------------------------------------------------------
  // What `bitwise` means

  /** Bit `i` of the encoded flags is set exactly when a true flag of the table sits at bit `i`. */
  lemma {:induction false} EncodeBits(t: Table, f: map<string, bool>, i: nat)
    requires Covers(t, f)
    ensures Bit(Encode(t, f), i) <==> FlagAt(t, f, i)
  {
    if t == [] {
      ZeroHasNoBits(i);
    } else {
      var p, e := t[..|t| - 1], t[|t| - 1];
      OrBit(Encode(p, f), if f[e.name] then Pow2(e.bit) else 0, i);
      EncodeBits(p, f, i);
      if f[e.name] {
        Pow2Bit(e.bit, i);
      } else {
        ZeroHasNoBits(i);
      }
      if FlagAt(p, f, i) {
        var k :| 0 <= k < |p| && p[k].bit == i && f[p[k].name];
        assert t[k] == p[k];
      }
      if FlagAt(t, f, i) {
        var k :| 0 <= k < |t| && t[k].bit == i && f[t[k].name];
        if k < |p| {
          assert p[k] == t[k];
        }
      }
    }
  }

  /** The mask has exactly the bits the table uses. */
  lemma {:induction false} MaskBits(t: Table, i: nat)
    ensures Bit(Mask(t), i) <==> UsesBit(t, i)
  {
    if t == [] {
      ZeroHasNoBits(i);
    } else {
      var p, e := t[..|t| - 1], t[|t| - 1];
      OrBit(Mask(p), Pow2(e.bit), i);
      Pow2Bit(e.bit, i);
      MaskBits(p, i);
      if UsesBit(p, i) {
        var k :| 0 <= k < |p| && p[k].bit == i;
        assert t[k] == p[k];
      }
      if UsesBit(t, i) {
        var k :| 0 <= k < |t| && t[k].bit == i;
        if k < |p| {
          assert p[k] == t[k];
        }
      }
    }
  }

  /** With every bit below 63 the encoded flags fit a 64-bit PHP integer. */
  lemma {:induction false} EncodeBound(t: Table, f: map<string, bool>)
    requires Covers(t, f)
    requires forall k :: 0 <= k < |t| ==> t[k].bit < 63
    ensures Encode(t, f) < Pow2(63)
  {
    if t != [] {
      var p, e := t[..|t| - 1], t[|t| - 1];
      assert forall k :: 0 <= k < |p| ==> p[k] == t[k];
      EncodeBound(p, f);
      Pow2Grows(e.bit, 63);
      OrBelow(Encode(p, f), if f[e.name] then Pow2(e.bit) else 0, 63);
    }
  }

  lemma Pow2Of63()
    ensures Pow2(63) == PHP_INT_MAX + 1
  {
    assert Pow2(2) == 4;
    assert Pow2(4) == 16 by {
      Pow2Sum(2, 2);
    }
    assert Pow2(8) == 256 by {
      Pow2Sum(4, 4);
    }
    assert Pow2(16) == 0x1_0000 by {
      Pow2Sum(8, 8);
    }
    assert Pow2(32) == 0x1_0000 * 0x1_0000 by {
      Pow2Sum(16, 16);
    }
    assert Pow2(48) == 0x1_0000_0000 * 0x1_0000 by {
      Pow2Sum(32, 16);
    }
    assert Pow2(15) == 0x8000 by {
      Pow2Sum(8, 4);
      Pow2Sum(12, 2);
      Pow2Sum(14, 1);
    }
    assert Pow2(63) == 0x1_0000_0000_0000 * 0x8000 by {
      Pow2Sum(48, 15);
    }
  }

  lemma {:induction false} Pow2Sum(m: nat, n: nat)
    ensures Pow2(m + n) == Pow2(m) * Pow2(n)
  {
    if n > 0 {
      Pow2Sum(m, n - 1);
    }
  }

  /**
    One step of the GMP loop agrees with one step of the native loop: setting
    or clearing the next entry's bit of what the earlier entries encoded is the
    same as OR-ing in `1 << bit` when the flag is true, because no earlier entry
    uses that bit.
  */
  lemma GmpStepMatchesNative(t: Table, f: map<string, bool>, k: nat)
    requires WellFormed(t) && Covers(t, f) && k < |t|
    ensures Covers(t[..k], f) && Covers(t[..k + 1], f)
    ensures SetBitTo(Encode(t[..k], f), t[k].bit, f[t[k].name]) == Encode(t[..k + 1], f)
  {
    var p, q := t[..k], t[..k + 1];
    assert q[..k] == p;
    var before := Encode(p, f);
    forall i: nat
      ensures Bit(SetBitTo(before, t[k].bit, f[t[k].name]), i) == Bit(Encode(q, f), i)
    {
      SetBitToBit(before, t[k].bit, f[t[k].name], i);
      EncodeBits(p, f, i);
      EncodeBits(q, f, i);
      if FlagAt(q, f, i) {
        var j :| 0 <= j < |q| && q[j].bit == i && f[q[j].name];
        if j < k {
          assert p[j] == q[j];
        }
      }
      if FlagAt(p, f, i) {
        var j :| 0 <= j < |p| && p[j].bit == i && f[p[j].name];
        assert q[j] == p[j];
      }
    }
    SameBits(SetBitTo(before, t[k].bit, f[t[k].name]), Encode(q, f));
  }

  // ---------------------------------------------------------------------------
  // Round trips

  /** Writing `v` and reading `bitwise` back gives `v` restricted to the table's bits. */
  lemma SetThenGet(t: Table, f: map<string, bool>, v: nat)
    requires NamesDistinct(t)
    ensures Covers(t, Decoded(t, f, v))
    ensures Encode(t, Decoded(t, f, v)) == And(v, Mask(t))
  {
    var d := Decoded(t, f, v);
    DecodedFlags(t, f, v);
    assert Covers(t, d);
    forall i: nat
      ensures Bit(Encode(t, d), i) == Bit(And(v, Mask(t)), i)
    {
      EncodeBits(t, d, i);
      AndBit(v, Mask(t), i);
      MaskBits(t, i);
    }
    SameBits(Encode(t, d), And(v, Mask(t)));
  }

  /** Reading `bitwise` and writing it back leaves every flag as it was. */
  lemma GetThenSet(t: Table, f: map<string, bool>)
    requires WellFormed(t) && Covers(t, f)
    ensures Decoded(t, f, Encode(t, f)) == f
  {
    var v := Encode(t, f);
    var d := Decoded(t, f, v);
    DecodedFlags(t, f, v);
    assert Names(t) <= f.Keys;
    forall n | n in f
      ensures d[n] == f[n]
    {
      if n in Names(t) {
        var k :| 0 <= k < |t| && t[k].name == n;
        EncodeBits(t, f, t[k].bit);
      }
    }
  }

  /** On a 64-bit build a decimal string decodes exactly as the integer it spells. */
  lemma DecimalStringDecodesAsInt(n: nat)
    requires n <= PHP_INT_MAX
    ensures Numeric(X64, StringValue(DecimalString(n))) == Numeric(X64, IntValue(n))
  {
    CastReadsDecimal(n);
  }

  /**
    The string a 32-bit GMP build reads out, written on a 64-bit build, sets
    every flag as it was: the two widths agree on the wire.
  */
  lemma CrossWidthRoundTrip(t: Table, f: map<string, bool>)
    requires WellFormed(t) && Covers(t, f)
    ensures Decoded(t, f, Numeric(X64, StringValue(DecimalString(Encode(t, f))))) == f
  {
    EncodeBound(t, f);
    Pow2Of63();
    CastReadsDecimal(Encode(t, f));
    GetThenSet(t, f);
  }

  // ---------------------------------------------------------------------------
  // The permission object

  /** `$fillable`, the table's names followed by `bitwise`, holds exactly those keys. */
  lemma FillableKeys(t: Table, fillable: seq<string>)
    requires fillable == NameList(t) + [BITWISE_KEY]
    ensures (set j | 0 <= j < |fillable| :: fillable[j]) == Names(t) + {BITWISE_KEY}
  {
    assert forall k :: 0 <= k < |t| ==> fillable[k] == t[k].name;
    assert fillable[|t|] == BITWISE_KEY;
  }

  class Permission {
    /** The active table, as the concrete kind of permission supplies it through `getPermissions`. */
    const permissions: Table
    /** The attribute bag: the flags by name, plus whatever else was filled in. */
    var attributes: map<string, bool>

    ghost predicate Valid()
      reads this
    {
      WellFormed(permissions) && Covers(permissions, attributes)
    }

    /**
      `filled` is the attribute bag as the generic part constructor leaves it;
      every fillable key it lacks (each table name, and `bitwise`) then defaults to false.
    */
    constructor (permissions: Table, filled: map<string, bool>)
      requires WellFormed(permissions)
      ensures this.permissions == permissions
      ensures Valid()
      ensures attributes.Keys == filled.Keys + Names(permissions) + {BITWISE_KEY}
      ensures forall n :: n in filled ==> attributes[n] == filled[n]
      ensures forall n :: n in attributes && n !in filled ==> !attributes[n]
    {
      var fillable := NameList(permissions) + [BITWISE_KEY];
      var attrs := filled;
      for i := 0 to |fillable|
        invariant attrs.Keys == filled.Keys + set j | 0 <= j < i :: fillable[j]
        invariant forall n :: n in filled ==> attrs[n] == filled[n]
        invariant forall n :: n in attrs && n !in filled ==> !attrs[n]
      {
        if fillable[i] !in attrs {
          attrs := attrs[fillable[i] := false];
        }
      }
      FillableKeys(permissions, fillable);
      this.permissions := permissions;
      attributes := attrs;
    }

    /**
      `getBitwiseAttribute`: a 32-bit GMP build sets or clears each table bit in
      turn, starting from 0, and returns the decimal string; a 64-bit build ORs in
      `1 << bit` for each true flag and returns the integer. Both give the number
      `Encode` defines, and the integer fits in 64 bits.
    */
    method GetBitwise(build: Build) returns (r: BitwiseValue)
      requires Valid()
      ensures r == if build == X86Gmp then StringValue(DecimalString(Encode(permissions, attributes)))
                   else IntValue(Encode(permissions, attributes))
      ensures r.IntValue? ==> r.n <= PHP_INT_MAX
    {
      var t := permissions;
      assert t[..|t|] == t;
      if build == X86Gmp {
        var bitwise := 0;
        for k := 0 to |t|
          invariant Covers(t[..k], attributes)
          invariant bitwise == Encode(t[..k], attributes)
        {
          GmpStepMatchesNative(t, attributes, k);
          bitwise := SetBitTo(bitwise, t[k].bit, attributes[t[k].name]);
        }
        return StringValue(DecimalString(bitwise));
      }
      var bitwise := 0;
      for k := 0 to |t|
        invariant Covers(t[..k], attributes)
        invariant bitwise == Encode(t[..k], attributes)
      {
        assert t[..k + 1][..k] == t[..k];
        if attributes[t[k].name] {
          bitwise := Or(bitwise, Pow2(t[k].bit));
        }
      }
      EncodeBound(t, attributes);
      Pow2Of63();
      r := IntValue(bitwise);
    }

    /**
      `setBitwiseAttribute`: every flag of the table is overwritten with the
      matching bit of the number written; no other attribute changes.
    */
    method SetBitwise(build: Build, bitwise: BitwiseValue)
      requires Valid()
      modifies this
      ensures Valid()
      ensures attributes == Decoded(permissions, old(attributes), Numeric(build, bitwise))
    {
      var t := permissions;
      var v := Numeric(build, bitwise);
      for k := 0 to |t|
        invariant attributes == Decoded(t[..k], old(attributes), v)
      {
        assert t[..k + 1][..k] == t[..k];
        if Bit(v, t[k].bit) {
          attributes := attributes[t[k].name := true];
        } else {
          attributes := attributes[t[k].name := false];
        }
      }
      assert t[..|t|] == t;
      DecodedFlags(t, old(attributes), v);
    }

    /** `use_slash_commands`, the former name of `use_application_commands`. */
    function UseSlashCommands(): (r: Option<bool>)
      reads this
      ensures Valid() && "use_application_commands" in Names(permissions) ==> r.Some?
      ensures r.Some? ==> "use_application_commands" in attributes && r.value == attributes["use_application_commands"]
    {
      Lookup(attributes, "use_application_commands")
    }

    /** `use_public_threads`, the former name of `create_public_threads`. */
    function UsePublicThreads(): (r: Option<bool>)
      reads this
      ensures Valid() && "create_public_threads" in Names(permissions) ==> r.Some?
      ensures r.Some? ==> "create_public_threads" in attributes && r.value == attributes["create_public_threads"]
    {
      Lookup(attributes, "create_public_threads")
    }

    /** `use_private_threads`, the former name of `create_private_threads`. */
    function UsePrivateThreads(): (r: Option<bool>)
      reads this
      ensures Valid() && "create_private_threads" in Names(permissions) ==> r.Some?
      ensures r.Some? ==> "create_private_threads" in attributes && r.value == attributes["create_private_threads"]
    {
      Lookup(attributes, "create_private_threads")
    }

    /** `manage_emojis`, the former name of `manage_emojis_and_stickers`. */
    function ManageEmojis(): (r: Option<bool>)
      reads this
      ensures Valid() && "manage_emojis_and_stickers" in Names(permissions) ==> r.Some?
      ensures r.Some? ==> "manage_emojis_and_stickers" in attributes && r.value == attributes["manage_emojis_and_stickers"]
    {
      Lookup(attributes, "manage_emojis_and_stickers")
    }
  }

  /**
    After a text-and-role permission is written with `v`, each former name
    reports the bit of the permission it now stands for.
  */
  lemma AliasesFollowBitwise(p: Permission, before: map<string, bool>, v: nat)
    requires p.permissions == TEXT_PERMISSIONS + ROLE_PERMISSIONS
    requires p.attributes == Decoded(p.permissions, before, v)
    ensures p.UseSlashCommands() == Some(Bit(v, 31))
    ensures p.UsePublicThreads() == Some(Bit(v, 35))
    ensures p.UsePrivateThreads() == Some(Bit(v, 36))
    ensures p.ManageEmojis() == Some(Bit(v, 30))
  {
    var t := p.permissions;
    TextRoleWellFormed(t);
    DecodedFlags(t, before, v);
    assert t[9] == Entry("use_application_commands", 31);
    assert t[11] == Entry("create_public_threads", 35);
    assert t[12] == Entry("create_private_threads", 36);
    assert t[23] == Entry("manage_emojis_and_stickers", 30);
  }

  /** The entries at positions 2 and 3 of the everywhere-plus-text table are the only ones named `view_channel` and `manage_roles`. */
  lemma OnlyViewChannelAndManageRoles(t: Table, k: nat)
    requires t == ALL_PERMISSIONS + TEXT_PERMISSIONS
    requires k < |t|
    ensures var n := t[k].name;
            (n == "view_channel" || n == "manage_roles") <==> k == 2 || k == 3
  {
    AllTextWellFormed(t);
    assert t[2].name == "view_channel" && t[3].name == "manage_roles";
    if k != 2 && k != 3 {
      assert t[k].name != t[2].name && t[k].name != t[3].name;
    }
  }

  /** Flags true at exactly two entries encode as the OR of those two entries' bits. */
  lemma EncodeTwoFlags(t: Table, f: map<string, bool>, a: nat, b: nat)
    requires WellFormed(t) && Covers(t, f) && a < |t| && b < |t|
    requires forall k :: 0 <= k < |t| ==> (f[t[k].name] <==> k == a || k == b)
    ensures Encode(t, f) == Or(Pow2(t[a].bit), Pow2(t[b].bit))
  {
    var v := Or(Pow2(t[a].bit), Pow2(t[b].bit));
    forall i: nat
      ensures Bit(Encode(t, f), i) == Bit(v, i)
    {
      EncodeBits(t, f, i);
      OrBit(Pow2(t[a].bit), Pow2(t[b].bit), i);
      Pow2Bit(t[a].bit, i);
      Pow2Bit(t[b].bit, i);
      if i == t[a].bit {
        assert f[t[a].name];
      } else if i == t[b].bit {
        assert f[t[b].name];
      }
    }
    SameBits(Encode(t, f), v);
  }

  /**
    A permission over the everywhere-plus-text table `t` allowing only `view_channel` and
    `manage_roles` encodes as `(1 << 10) | (1 << 28)`.
  */
  lemma ViewChannelAndManageRolesEncode(t: Table, f: map<string, bool>)
    requires t == ALL_PERMISSIONS + TEXT_PERMISSIONS
    requires Covers(t, f)
    requires forall k :: 0 <= k < |t| ==> f[t[k].name] == (t[k].name == "view_channel" || t[k].name == "manage_roles")
    ensures Encode(t, f) == Or(Pow2(10), Pow2(28))
  {
    AllTextWellFormed(t);
    forall k | 0 <= k < |t|
      ensures f[t[k].name] <==> k == 2 || k == 3
    {
      OnlyViewChannelAndManageRoles(t, k);
    }
    assert t[2].bit == 10 && t[3].bit == 28;
    EncodeTwoFlags(t, f, 2, 3);
  }

  /** Writing a number whose only bits are those of entries `a` and `b` sets exactly those two flags. */
  lemma DecodeTwoBits(t: Table, other: map<string, bool>, v: nat, a: nat, b: nat)
    requires WellFormed(t) && a < |t| && b < |t|
    requires forall i: nat :: Bit(v, i) <==> i == t[a].bit || i == t[b].bit
    ensures forall k :: 0 <= k < |t| ==> t[k].name in Decoded(t, other, v) && Decoded(t, other, v)[t[k].name] == (k == a || k == b)
  {
    DecodedFlags(t, other, v);
  }

  lemma TenAndTwentyEight(i: nat)
    ensures Bit(Or(Pow2(10), Pow2(28)), i) <==> i == 10 || i == 28
  {
    OrBit(Pow2(10), Pow2(28), i);
    Pow2Bit(10, i);
    Pow2Bit(28, i);
  }

  /**
    Writing `(1 << 10) | (1 << 28)` into any attribute bag of a permission over the
    everywhere-plus-text table sets `view_channel` and `manage_roles` and clears every other flag of the table.
  */
  lemma ViewChannelAndManageRolesDecode(t: Table, other: map<string, bool>)
    requires t == ALL_PERMISSIONS + TEXT_PERMISSIONS
    ensures forall k :: 0 <= k < |t| ==>
              var n := t[k].name;
              n in Decoded(t, other, Or(Pow2(10), Pow2(28))) &&
              Decoded(t, other, Or(Pow2(10), Pow2(28)))[n] == (n == "view_channel" || n == "manage_roles")
  {
    var v := Or(Pow2(10), Pow2(28));
    AllTextWellFormed(t);
    assert t[2].bit == 10 && t[3].bit == 28;
    forall i: nat
      ensures Bit(v, i) <==> i == t[2].bit || i == t[3].bit
    {
      TenAndTwentyEight(i);
    }
    DecodeTwoBits(t, other, v, 2, 3);
    forall k | 0 <= k < |t|
      ensures var n := t[k].name; Decoded(t, other, v)[n] == (n == "view_channel" || n == "manage_roles")
    {
      OnlyViewChannelAndManageRoles(t, k);
    }
  }
}
