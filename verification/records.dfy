/**
 * The per-player section of playerData.yml, keyed by the player's unique
 * id. A section may exist with only some of its keys set (the death and
 * respawn handlers create a section holding only the override flag), so
 * every key is optional; reading an absent key yields YAML's default
 * (0 for getInt, false for getBoolean).
 */
module PlayerRecords {
  import opened Wrappers
  import opened Host

  datatype Section = Section(
    name: Option<string>,
    standingOn: Option<string>,
    x: Option<int>,
    y: Option<int>,
    z: Option<int>,
    bedSpawnLocation: Option<string>,
    overrideWorldSpawn: Option<bool>)

  /** A freshly created section: no key is set. */
  const EmptySection := Section(None, None, None, None, None, None, None)

  /** getInt of a key: its value, or 0 when absent. */
  function GetInt(v: Option<int>): (r: int)
    ensures v.Some? ==> r == v.value
    ensures v.None? ==> r == 0
  {
    v.GetOr(0)
  }

  /** getBoolean of a key: its value, or false when absent. */
  function GetBoolean(v: Option<bool>): (r: bool)
    ensures r <==> v == Some(true)
  {
    v.GetOr(false)
  }

  /** createPlayerSection: the player's section, or a new empty one when there is none. */
  function SectionOrEmpty(data: map<PlayerId, Section>, id: PlayerId): (s: Section)
    ensures id in data ==> s == data[id]
    ensures id !in data ==> s == EmptySection
  {
    if id in data then data[id] else EmptySection
  }

  /**
   * setPlayerData on a section: the player's name, the type of the block
   * the location stands on, the location's block coordinates and the bed
   * spawn marker. The override flag is left as it was. Reading the
   * coordinates back gives the location's block.
   */
  function RecordSpot(s: Section, w: World, loc: Location, player: Player): (r: Section)
    ensures StoredLocation(r).Block() == loc.Block()
    ensures r.standingOn == Some(StandingOn(w, loc).name)
    ensures r.overrideWorldSpawn == s.overrideWorldSpawn
  {
    var b := loc.Block();
    s.(name := Some(player.name),
       standingOn := Some(StandingOn(w, loc).name),
       x := Some(b.x), y := Some(b.y), z := Some(b.z),
       bedSpawnLocation := Some(BedSpawnMarker(player.bedSpawn)))
  }

  /** The location stored in a section: `new Location(world, getInt(x), getInt(y), getInt(z))`. */
  function StoredLocation(s: Section): (loc: Location)
    ensures loc.Block() == BlockPos(GetInt(s.x), GetInt(s.y), GetInt(s.z))
  {
    AtBlock(GetInt(s.x), GetInt(s.y), GetInt(s.z))
  }

  // Decimal text of integers, as Java's string concatenation writes them.

  predicate IsDigit(ch: char)
  {
    '0' <= ch <= '9'
  }

  predicate AllDigits(s: string)
  {
    forall i :: 0 <= i < |s| ==> IsDigit(s[i])
  }

  function DigitChar(d: int): (ch: char)
    requires 0 <= d < 10
    ensures IsDigit(ch)
  {
    "0123456789"[d]
  }

  function DigitValue(ch: char): (d: int)
    requires IsDigit(ch)
    ensures 0 <= d < 10
  {
    ch as int - '0' as int
  }

  /** The decimal digits of n, without leading zeros. */
  function NatToString(n: nat): (s: string)
    decreases n
    ensures 0 < |s| && AllDigits(s)
  {
    if n < 10 then [DigitChar(n)] else NatToString(n / 10) + [DigitChar(n % 10)]
  }

  /** Java's decimal form of an int: a '-' before the digits of a negative number. */
  function IntToString(n: int): (s: string)
    ensures 0 < |s|
    ensures IsDigit(s[0]) || s[0] == '-'
    ensures '_' !in s
  {
    if n < 0 then "-" + NatToString(-n) else NatToString(n)
  }

  /** The value of a string of decimal digits. */
  function ParseNat(s: string): nat
    requires AllDigits(s)
    decreases |s|
  {
    if s == [] then 0 else ParseNat(s[..|s| - 1]) * 10 + DigitValue(s[|s| - 1])
  }

  /** The value of a decimal integer text, or None when it is not one. */
  function ParseInt(s: string): Option<int>
  {
    if 1 < |s| && s[0] == '-' && AllDigits(s[1..]) then Some(-(ParseNat(s[1..]) as int))
    else if 0 < |s| && AllDigits(s) then Some(ParseNat(s))
    else None
  }

  lemma {:induction false} NatToStringRoundTrip(n: nat)
    decreases n
    ensures ParseNat(NatToString(n)) == n
  {
    var s := NatToString(n);
    if n >= 10 {
      NatToStringRoundTrip(n / 10);
      assert s[..|s| - 1] == NatToString(n / 10);
    }
  }

  lemma IntToStringRoundTrip(n: int)
    ensures ParseInt(IntToString(n)) == Some(n)
  {
    var s := IntToString(n);
    if n < 0 {
      var t := NatToString(-n);
      NatToStringRoundTrip(-n);
      assert s[1..] == t;
      assert 1 < |s| && s[0] == '-' && AllDigits(s[1..]);
    } else {
      NatToStringRoundTrip(n);
      assert s[0] != '-';
    }
  }

  /** The fields of a text separated by '_'. */
  function SplitFields(s: string): (r: seq<string>)
    decreases |s|
    ensures 0 < |r|
  {
    if s == [] then [""]
    else if s[0] == '_' then [""] + SplitFields(s[1..])
    else
      var rest := SplitFields(s[1..]);
      [[s[0]] + rest[0]] + rest[1..]
  }

  lemma {:induction false} SplitFieldsAt(a: string, b: string)
    requires '_' !in a
    decreases |a|
    ensures SplitFields(a + "_" + b) == [a] + SplitFields(b)
  {
    if a == [] {
      assert a + "_" + b == "_" + b;
    } else {
      assert (a + "_" + b)[1..] == a[1..] + "_" + b;
      SplitFieldsAt(a[1..], b);
      assert [a[0]] + a[1..] == a;
    }
  }

  lemma {:induction false} SplitFieldsWhole(a: string)
    requires '_' !in a
    decreases |a|
    ensures SplitFields(a) == [a]
  {
    if a != [] {
      SplitFieldsWhole(a[1..]);
      assert [a[0]] + a[1..] == a;
    }
  }

  /**
   * The bedSpawnLocation value setPlayerData writes: "null" without a bed
   * spawn, otherwise the block coordinates of the bed spawn joined by '_'.
   */
  function BedSpawnMarker(bed: Option<Location>): (s: string)
    ensures s == "null" <==> bed.None?
  {
    match bed
    case None => "null"
    case Some(loc) =>
      var b := loc.Block();
      IntToString(b.x) + "_" + IntToString(b.y) + "_" + IntToString(b.z)
  }

  /**
   * Reads a bedSpawnLocation value back: Some(None) for "null",
   * Some(Some(block)) for "X_Y_Z". The plugin itself never reads the value;
   * this parser exists to show the marker is unambiguous.
   */
  function ParseBedSpawnMarker(s: string): Option<Option<BlockPos>>
  {
    if s == "null" then Some(None)
    else
      var f := SplitFields(s);
      if |f| != 3 then None
      else match (ParseInt(f[0]), ParseInt(f[1]), ParseInt(f[2]))
        case (Some(x), Some(y), Some(z)) => Some(Some(BlockPos(x, y, z)))
        case _ => None
  }

  /** The marker is unambiguous: it gives back exactly whether there is a bed spawn, and its block. */
  lemma BedSpawnMarkerRoundTrip(bed: Option<Location>)
    ensures ParseBedSpawnMarker(BedSpawnMarker(bed)) ==
      match bed
      case None => Some(None)
      case Some(loc) => Some(Some(loc.Block()))
  {
    if bed.Some? {
      var b := bed.value.Block();
      var sx, sy, sz := IntToString(b.x), IntToString(b.y), IntToString(b.z);
      var s := BedSpawnMarker(bed);
      assert s == sx + "_" + (sy + "_" + sz);
      assert s[0] == sx[0];
      assert s != "null";
      SplitFieldsAt(sx, sy + "_" + sz);
      SplitFieldsAt(sy, sz);
      SplitFieldsWhole(sz);
      assert SplitFields(s) == [sx, sy, sz];
      IntToStringRoundTrip(b.x);
      IntToStringRoundTrip(b.y);
      IntToStringRoundTrip(b.z);
    }
  }
}
