/**
 * `prepare_boards` of src/io/handler.rs: pick the latest save file by name,
 * read the version number after its last 'v', and load that version,
 * falling back to one default board.
 */
module SaveFiles {
  import opened Wrappers
  import opened Kanban
  import Decimal

  /** Rust's `u32`, the type of a save-file version. */
  newtype u32 = x: int | 0 <= x < 0x1_0000_0000

  const U32_MAX: nat := 0xFFFF_FFFF

  /** The loader `get_local_kanban_state`: boards of one version, or an error message. */
  type Loader = u32 -> Result<seq<Board>, string>

  // ---------------------------------------------------------------------
  // Rust's `Ord` for `String`: lexicographic by code point (the order of
  // the UTF-8 bytes is the same).

  predicate LexLe(a: string, b: string): (r: bool)
    ensures a <= b ==> r
    ensures r && |a| > 0 ==> |b| > 0 && a[0] <= b[0]
  {
    if |a| == 0 then true
    else if |b| == 0 then false
    else if a[0] != b[0] then a[0] < b[0]
    else LexLe(a[1..], b[1..])
  }

  lemma LexLeReflexive(a: string)
    ensures LexLe(a, a)
  {
  }

  lemma {:induction false} LexLeAntisymmetric(a: string, b: string)
    requires LexLe(a, b) && LexLe(b, a)
    ensures a == b
  {
    if |a| > 0 && |b| > 0 {
      LexLeAntisymmetric(a[1..], b[1..]);
      assert a == [a[0]] + a[1..] && b == [b[0]] + b[1..];
    }
  }

  lemma {:induction false} LexLeTransitive(a: string, b: string, c: string)
    requires LexLe(a, b) && LexLe(b, c)
    ensures LexLe(a, c)
  {
    if |a| > 0 && |b| > 0 && |c| > 0 && a[0] == b[0] == c[0] {
      LexLeTransitive(a[1..], b[1..], c[1..]);
    }
  }

  lemma {:induction false} LexLeTotal(a: string, b: string)
    ensures LexLe(a, b) || LexLe(b, a)
  {
    if |a| > 0 && |b| > 0 && a[0] == b[0] {
      LexLeTotal(a[1..], b[1..]);
    }
  }

  /**
   * `Iterator::max` over the listed names: a left fold that keeps the later
   * element when it is at least as large.
   */
  function MaxName(names: seq<string>): (r: Option<string>)
    ensures r.None? <==> names == []
    ensures r.Some? ==> r.value in names
    ensures r.Some? ==> forall n :: n in names ==> LexLe(n, r.value)
  {
    if names == [] then None
    else
      var last := names[|names| - 1];
      var init := names[..|names| - 1];
      assert names == init + [last];
      match MaxName(init)
      case None => LexLeReflexive(last); Some(last)
      case Some(m) =>
        LexLeTotal(m, last);
        if LexLe(m, last) then
          assert forall n :: n in init ==> LexLe(n, last) by {
            forall n | n in init ensures LexLe(n, last) {
              LexLeTransitive(n, m, last);
            }
          }
          LexLeReflexive(last);
          Some(last)
        else
          LexLeReflexive(m);
          Some(m)
  }

  /** Only one name can be a maximum: the latest name is determined by the set of names. */
  lemma MaxNameUnique(names: seq<string>, top: string)
    requires top in names && forall n :: n in names ==> LexLe(n, top)
    ensures MaxName(names) == Some(top)
  {
    var m := MaxName(names).value;
    LexLeAntisymmetric(m, top);
  }

  /** The name whose version is loaded: the greatest listed name, or "1" when none is listed. */
  function LatestSaveName(saveFiles: seq<string>): (name: string)
    ensures saveFiles == [] ==> name == "1"
    ensures saveFiles != [] ==> name in saveFiles && forall n :: n in saveFiles ==> LexLe(n, name)
  {
    MaxName(saveFiles).GetOr("1")
  }

  // ---------------------------------------------------------------------
  // `str::split` on one character.

  function Split(s: string, sep: char): (parts: seq<string>)
    ensures |parts| >= 1
    ensures forall i :: 0 <= i < |parts| ==> sep !in parts[i]
  {
    if |s| == 0 then [""]
    else
      var rest := Split(s[1..], sep);
      if s[0] == sep then [""] + rest
      else [[s[0]] + rest[0]] + rest[1..]
  }

  /** `join` with one separator: the inverse of `Split`. */
  function Join(parts: seq<string>, sep: char): string
    requires |parts| >= 1
  {
    if |parts| == 1 then parts[0] else parts[0] + [sep] + Join(parts[1..], sep)
  }

  lemma {:induction false} JoinSplit(s: string, sep: char)
    ensures Join(Split(s, sep), sep) == s
  {
    if |s| > 0 {
      JoinSplit(s[1..], sep);
      var rest := Split(s[1..], sep);
      if s[0] != sep {
        var parts := Split(s, sep);
        assert parts[1..] == rest[1..];
        if |rest| == 1 {
          assert s == [s[0]] + rest[0];
        } else {
          assert Join(rest, sep) == rest[0] + [sep] + Join(rest[1..], sep);
          assert s == [s[0]] + s[1..];
        }
      }
    }
  }

  /** Splitting text that holds no separator yields that text alone. */
  lemma {:induction false} SplitNoSeparator(s: string, sep: char)
    requires sep !in s
    ensures Split(s, sep) == [s]
  {
    if |s| > 0 {
      assert sep !in s[1..];
      SplitNoSeparator(s[1..], sep);
      assert s == [s[0]] + s[1..];
    }
  }

  /** A separator cuts the text into the parts before and after it. */
  lemma {:induction false} SplitAround(a: string, sep: char, b: string)
    ensures Split(a + [sep] + b, sep) == Split(a, sep) + Split(b, sep)
  {
    if |a| == 0 {
      assert a + [sep] + b == [sep] + b;
      assert ([sep] + b)[1..] == b;
    } else {
      assert (a + [sep] + b)[1..] == a[1..] + [sep] + b;
      SplitAround(a[1..], sep, b);
    }
  }

  /** `split(..).collect::<Vec<_>>().pop().unwrap_or("1")`: the last part. */
  function LastPart(s: string, sep: char): (last: string)
    ensures sep !in last
  {
    var parts := Split(s, sep);
    if |parts| > 0 then parts[|parts| - 1] else "1"
  }

  /** The last part is the text after the last separator. */
  lemma TextAfterLastSeparator(a: string, sep: char, b: string)
    requires sep !in b
    ensures LastPart(a + [sep] + b, sep) == b
  {
    SplitAround(a, sep, b);
    SplitNoSeparator(b, sep);
  }

  /** Without a separator the last part is the whole text. */
  lemma LastPartNoSeparator(s: string, sep: char)
    requires sep !in s
    ensures LastPart(s, sep) == s
  {
    SplitNoSeparator(s, sep);
  }

  // ---------------------------------------------------------------------
  // `str::parse::<u32>`.

  /** Rust's `u32::from_str`: one optional '+', then at least one ASCII digit, of value at most `u32::MAX`. */
  function ParseU32(s: string): (r: Option<u32>)
    ensures r.Some? ==> exists d :: (s == d || s == "+" + d) && Decimal.AllDigits(d) && |d| > 0 && Decimal.Value(d) == r.value as nat
  {
    var digits := if |s| > 0 && s[0] == '+' then s[1..] else s;
    if |digits| > 0 && Decimal.AllDigits(digits) && Decimal.Value(digits) <= U32_MAX
    then
      assert s == digits || s == "+" + digits;
      Some(Decimal.Value(digits) as u32)
    else None
  }

  lemma ParseFormat(n: u32)
    ensures ParseU32(Decimal.Format(n as nat)) == Some(n)
    ensures ParseU32("+" + Decimal.Format(n as nat)) == Some(n)
  {
    Decimal.ValueOfFormat(n as nat);
    assert ("+" + Decimal.Format(n as nat))[1..] == Decimal.Format(n as nat);
  }

  /** Every non-empty run of digits of value at most `u32::MAX` parses, with or without one '+'. */
  lemma ParseDigits(d: string)
    requires |d| > 0 && Decimal.AllDigits(d) && Decimal.Value(d) <= U32_MAX
    ensures ParseU32(d) == Some(Decimal.Value(d) as u32)
    ensures ParseU32("+" + d) == Some(Decimal.Value(d) as u32)
  {
  }

  /** Leading zeros are accepted and do not change the value. */
  lemma ParseLeadingZeros(zeros: string, n: u32)
    requires forall i :: 0 <= i < |zeros| ==> zeros[i] == '0'
    ensures ParseU32(zeros + Decimal.Format(n as nat)) == Some(n)
  {
    var d := Decimal.Format(n as nat);
    ZerosPrefix(zeros, d);
    Decimal.ValueOfFormat(n as nat);
  }

  lemma {:induction false} ZerosPrefix(zeros: string, d: string)
    requires forall i :: 0 <= i < |zeros| ==> zeros[i] == '0'
    requires Decimal.AllDigits(d)
    ensures Decimal.AllDigits(zeros + d) && Decimal.Value(zeros + d) == Decimal.Value(d)
  {
    if |d| == 0 {
      assert zeros + d == zeros;
      AllZerosValue(zeros);
    } else {
      var d' := d[..|d| - 1];
      ZerosPrefix(zeros, d');
      assert (zeros + d)[..|zeros + d| - 1] == zeros + d';
    }
  }

  lemma {:induction false} AllZerosValue(zeros: string)
    requires forall i :: 0 <= i < |zeros| ==> zeros[i] == '0'
    ensures Decimal.AllDigits(zeros) && Decimal.Value(zeros) == 0
  {
    if |zeros| > 0 {
      AllZerosValue(zeros[..|zeros| - 1]);
    }
  }

  /** Numbers beyond `u32::MAX` do not parse. */
  lemma ParseOverflow(n: nat)
    requires n > U32_MAX
    ensures ParseU32(Decimal.Format(n)) == None
  {
    Decimal.ValueOfFormat(n);
  }

  /** Empty text, a lone sign, a minus sign and anything with a non-digit after the sign do not parse. */
  lemma ParseRejects(s: string)
    ensures ParseU32("") == None && ParseU32("+") == None
    ensures |s| > 0 && s[0] == '-' ==> ParseU32(s) == None
    ensures (exists i :: 0 < i < |s| && !Decimal.IsDigit(s[i])) ==> ParseU32(s) == None
  {
  }

  // ---------------------------------------------------------------------
  // The version number and `prepare_boards`.

  /** The version named by a save-file name: its text after the last 'v' parsed as `u32`, else 1. */
  function VersionOf(name: string): (v: u32)
    ensures v == 1 || exists d :: (LastPart(name, 'v') == d || LastPart(name, 'v') == "+" + d)
                                   && |d| > 0 && Decimal.AllDigits(d) && Decimal.Value(d) == v as nat
  {
    ParseU32(LastPart(name, 'v')).GetOr(1)
  }

  /** A name without 'v' is parsed whole. */
  lemma VersionWithoutV(name: string)
    requires 'v' !in name
    ensures VersionOf(name) == ParseU32(name).GetOr(1)
  {
    LastPartNoSeparator(name, 'v');
  }

  /** A name ending in 'v' and a decimal number selects that number. */
  lemma VersionAfterV(prefix: string, n: u32)
    ensures VersionOf(prefix + "v" + Decimal.Format(n as nat)) == n
  {
    var d := Decimal.Format(n as nat);
    assert forall i :: 0 <= i < |d| ==> d[i] != 'v';
    assert prefix + "v" + d == prefix + ['v'] + d;
    TextAfterLastSeparator(prefix, 'v', d);
    ParseFormat(n);
  }

  /** Whatever the name, a text after the last 'v' that does not parse gives version 1. */
  lemma VersionDefault(name: string)
    requires ParseU32(LastPart(name, 'v')).None?
    ensures VersionOf(name) == 1
  {
  }

  lemma VersionExampleBoards()
    ensures VersionOf("boardsv7") == 7
  {
    VersionAfterV("boards", 7);
    assert Decimal.Format(7) == "7";
    assert "boards" + "v" + "7" == "boardsv7";
  }

  lemma VersionExampleNonsense()
    ensures VersionOf("nonsense") == 1
  {
  }

  /** A name ending in 'v' leaves nothing to parse, so it gives version 1. */
  lemma VersionTrailingV(prefix: string)
    ensures VersionOf(prefix + "v") == 1
  {
    assert prefix + "v" == prefix + ['v'] + "";
    TextAfterLastSeparator(prefix, 'v', "");
  }

  /** `prepare_boards`: the boards of the latest version, or one default board when loading fails. */
  function PrepareBoards(saveFiles: seq<string>, load: Loader): (boards: seq<Board>)
    ensures load(VersionOf(LatestSaveName(saveFiles))).Success? ==> boards == load(VersionOf(LatestSaveName(saveFiles))).value
    ensures load(VersionOf(LatestSaveName(saveFiles))).Failure? ==> boards == [DefaultBoard]
  {
    var version := VersionOf(LatestSaveName(saveFiles));
    match load(version)
    case Success(data) => data
    case Failure(_) => [DefaultBoard]
  }

  /** With no save file listed, version 1 is loaded. */
  lemma NoSaveFilesLoadsVersionOne(load: Loader)
    ensures PrepareBoards([], load) == if load(1).Success? then load(1).value else [DefaultBoard]
  {
  }

  /**
   * When the greatest listed name is `prefix + "v" + n`, version n is the one
   * loaded, whatever the other names are.
   */
  lemma LoadsGreatestName(saveFiles: seq<string>, load: Loader, prefix: string, n: u32)
    requires prefix + "v" + Decimal.Format(n as nat) in saveFiles
    requires forall f :: f in saveFiles ==> LexLe(f, prefix + "v" + Decimal.Format(n as nat))
    ensures PrepareBoards(saveFiles, load) == if load(n).Success? then load(n).value else [DefaultBoard]
  {
    MaxNameUnique(saveFiles, prefix + "v" + Decimal.Format(n as nat));
    VersionAfterV(prefix, n);
  }

  /** The choice is by text, not by number: of "v1", "v2" and "v10", "v2" is loaded. */
  lemma TextualNotNumericMaximum(load: Loader)
    ensures LatestSaveName(["v1", "v2", "v10"]) == "v2"
    ensures PrepareBoards(["v1", "v2", "v10"], load) == if load(2).Success? then load(2).value else [DefaultBoard]
  {
  }
}
