// The INI reader behind the CE3226 sample's sensor configuration
// (src/ce3226/mps_service/src/mps_internal/cnsample_comm_config.cpp): the
// in-place trimming and upper-casing of C strings, locating a section and a
// key, and reading the sensor table out of the file.
module IniConfig {
  import opened Common

  /** CNCFG_MAX_SECTIONNAME_LEN, CNCFG_MAX_KEYNAME_LEN, CNCFG_MAX_VALUE_LEN. */
  const MAX_SECTION_NAME_LEN: nat := 50
  const MAX_KEY_NAME_LEN: nat := 50
  const MAX_VALUE_LEN: nat := 255

  const NUL: char := '\0'

  /** The configuration's section and key names. */
  const SECTION_SENSOR_CONFIG: string := "SensorConfig"
  const KEY_SENSOR_NUM: string := "SensorNum"
  const KEY_TYPE: string := "Type"
  const KEY_MIPI_DEV: string := "MipiDev"
  const KEY_BUS_ID: string := "BusID"
  const KEY_SNS_CLK_ID: string := "SnsClkId"

  // CNCFG_PROFILE_COMMENT_S and CNCFG_PROFILE_COMMENT_E: the block-comment
  // opener (slash, star) and closer (star, slash).
  const COMMENT_OPEN: string := ['/', '*']
  const COMMENT_CLOSE: string := ['*', '/']

  // ---------------------------------------------------------------------
  // C strings in character buffers.

  /** The position of the first NUL. */
  function NulAt(s: seq<char>): (n: nat)
    requires NUL in s
    ensures n < |s| && s[n] == NUL && NUL !in s[..n]
  {
    if s[0] == NUL then 0 else NulAt(s[1..]) + 1
  }

  /** The C string a buffer holds: everything before the first NUL. */
  function CStr(s: seq<char>): seq<char>
    requires NUL in s
  {
    s[..NulAt(s)]
  }

  lemma CStrAt(s: seq<char>, n: nat)
    requires n < |s| && s[n] == NUL && NUL !in s[..n]
    ensures NUL in s && CStr(s) == s[..n]
  {
    var m := NulAt(s);
  }

  /** strlen. */
  method StrLen(a: array<char>) returns (n: nat)
    requires NUL in a[..]
    ensures n < a.Length && a[..n] == CStr(a[..])
  {
    n := 0;
    while a[n] != NUL
      invariant n <= NulAt(a[..])
      invariant NUL !in a[..n]
      decreases NulAt(a[..]) - n
    {
      assert a[..n + 1] == a[..n] + [a[n]];
      n := n + 1;
    }
    CStrAt(a[..], n);
  }

  // ---------------------------------------------------------------------
  // Trimming.

  /** The characters trimming removes: space and tab. */
  predicate Blank(c: char)
  {
    c == ' ' || c == '\t'
  }

  function DropLeading(s: seq<char>): seq<char>
  {
    if |s| > 0 && Blank(s[0]) then DropLeading(s[1..]) else s
  }

  function DropTrailing(s: seq<char>): seq<char>
  {
    if |s| > 0 && Blank(s[|s| - 1]) then DropTrailing(s[..|s| - 1]) else s
  }

  /** A string without its leading and trailing spaces and tabs. */
  function Trimmed(s: seq<char>): seq<char>
  {
    DropTrailing(DropLeading(s))
  }

  lemma {:induction false} DropLeadingAt(s: seq<char>, i: nat)
    requires i <= |s| && (forall j :: 0 <= j < i ==> Blank(s[j])) && (i == |s| || !Blank(s[i]))
    ensures DropLeading(s) == s[i..]
    decreases i
  {
    if i > 0 {
      DropLeadingAt(s[1..], i - 1);
      assert s[1..][i - 1..] == s[i..];
    }
  }

  lemma {:induction false} DropTrailingAt(s: seq<char>, i: nat)
    requires i <= |s| && (forall j :: i <= j < |s| ==> Blank(s[j])) && (i == 0 || !Blank(s[i - 1]))
    ensures DropTrailing(s) == s[..i]
    decreases |s| - i
  {
    if i < |s| {
      DropTrailingAt(s[..|s| - 1], i);
      assert s[..|s| - 1][..i] == s[..i];
    }
  }

  /** `t` sits in `s` at position i with only blanks around it. */
  predicate PaddedAt(s: seq<char>, t: seq<char>, i: nat)
  {
    i + |t| <= |s| && s[i..i + |t|] == t &&
    (forall j :: 0 <= j < i ==> Blank(s[j])) && (forall j :: i + |t| <= j < |s| ==> Blank(s[j]))
  }

  /** Trimming takes off a blank prefix and a blank suffix and leaves a
      string that neither starts nor ends with a blank. */
  lemma {:induction false} TrimmedShape(s: seq<char>)
    ensures var t := Trimmed(s);
      (|t| > 0 ==> !Blank(t[0]) && !Blank(t[|t| - 1])) && exists i :: PaddedAt(s, t, i)
  {
    var i := 0;
    while i < |s| && Blank(s[i])
      invariant i <= |s| && forall j :: 0 <= j < i ==> Blank(s[j])
    {
      i := i + 1;
    }
    DropLeadingAt(s, i);
    var e := |s|;
    while e > i && Blank(s[e - 1])
      invariant i <= e <= |s| && forall j :: e <= j < |s| ==> Blank(s[j])
    {
      e := e - 1;
    }
    DropTrailingAt(s[i..], e - i);
    assert Trimmed(s) == s[i..e];
    assert PaddedAt(s, Trimmed(s), i);
  }

  /** Trimming twice is trimming once. */
  lemma TrimIdempotent(s: seq<char>)
    ensures Trimmed(Trimmed(s)) == Trimmed(s)
  {
    var t := Trimmed(s);
    TrimmedShape(s);
    if |t| > 0 {
      DropLeadingAt(t, 0);
      DropTrailingAt(t, |t|);
    }
  }

  /** Where the two loops of the trim stop delimits the trimmed string. */
  lemma TrimBounds(s: seq<char>, left: nat, right: nat)
    requires 0 < |s| && left <= |s| && right < |s|
    requires forall j :: 0 <= j < left ==> Blank(s[j])
    requires left == |s| || !Blank(s[left])
    requires forall j :: right < j < |s| ==> Blank(s[j])
    requires right == 0 || !Blank(s[right])
    ensures right >= left ==> Trimmed(s) == s[left..right + 1]
    ensures right < left ==> left == |s| && Trimmed(s) == []
  {
    DropLeadingAt(s, left);
    if right >= left {
      DropTrailingAt(s[left..], right - left + 1);
      assert s[left..][..right - left + 1] == s[left..right + 1];
    } else {
      assert left == |s|;
    }
  }

  /** cnsampleCommIniStringTrim: strips leading and trailing spaces and
      tabs in place. A null buffer and an empty string give FAILURE (and
      the string is left as it was); a string of blanks becomes "". */
  method StringTrim(a: array?<char>) returns (ok: bool)
    requires a != null ==> NUL in a[..]
    modifies a
    ensures a == null ==> !ok
    ensures a != null ==> NUL in a[..] && (ok <==> |CStr(old(a[..]))| >= 1)
    ensures a != null && ok ==> CStr(a[..]) == Trimmed(CStr(old(a[..])))
    ensures a != null && !ok ==> a[..] == old(a[..])
  {
    if a == null {
      return false;
    }
    ghost var s := CStr(a[..]);
    var len := StrLen(a);
    var left := SkipLeading(a, len);
    if len < 1 {
      return false;
    }
    var right := SkipTrailing(a, len);
    TrimBounds(s, left, right);
    if right >= left {
      var count := right - left + 1;
      ghost var before := a[..];
      MoveDown(a, left, count);
      assert a[..count] == s[left..right + 1] by {
        assert a[..count] == before[left..left + count];
        assert s == before[..len];
      }
      CStrAt(a[..], count);
    } else {
      a[0] := NUL;
      CStrAt(a[..], 0);
    }
    ok := true;
  }

  /** The first loop of the trim: the index of the first character that is
      neither blank nor the terminator. */
  method SkipLeading(a: array<char>, len: nat) returns (left: nat)
    requires len < a.Length && a[len] == NUL && NUL !in a[..len]
    ensures left <= len && (left == len || !Blank(a[left]))
    ensures forall j :: 0 <= j < left ==> Blank(a[j])
  {
    left := 0;
    while (a[left] == ' ' || a[left] == '\t') && a[left] != NUL
      invariant left <= len
      invariant forall j :: 0 <= j < left ==> Blank(a[j])
      decreases len - left
    {
      left := left + 1;
    }
    if left < len {
      assert a[..len][left] != NUL;
    }
  }

  /** The second loop of the trim: from the last character down to the
      last one that is not blank, stopping at index 0. */
  method SkipTrailing(a: array<char>, len: nat) returns (right: nat)
    requires 0 < len < a.Length
    ensures right < len && (right == 0 || !Blank(a[right]))
    ensures forall j :: right < j < len ==> Blank(a[j])
  {
    right := len - 1;
    while (a[right] == ' ' || a[right] == '\t') && 0 < right
      invariant 0 <= right < len
      invariant forall j :: right < j < len ==> Blank(a[j])
    {
      right := right - 1;
    }
  }

  /** The memmove of the trim and the new terminator: `count` characters
      from `left` on move to the front. */
  method MoveDown(a: array<char>, left: nat, count: nat)
    requires left + count <= a.Length && count < a.Length
    modifies a
    ensures a[..count] == old(a[left..left + count])
    ensures a[count] == NUL
    ensures forall j :: count < j < a.Length ==> a[j] == old(a[j])
  {
    var k := 0;
    while k < count
      invariant 0 <= k <= count
      invariant forall j :: 0 <= j < k ==> a[j] == old(a[left + j])
      invariant forall j :: k <= j < a.Length ==> a[j] == old(a[j])
    {
      a[k] := a[left + k];
      k := k + 1;
    }
    assert a[..count] == old(a[left..left + count]);
    a[count] := NUL;
  }

  // ---------------------------------------------------------------------
  // Upper-casing.

  function ToUpper(c: char): (r: char)
    ensures 'a' <= c <= 'z' ==> r as int == c as int - 32
    ensures !('a' <= c <= 'z') ==> r == c
  {
    if 'a' <= c <= 'z' then (c as int - 32) as char else c
  }

  /** A string with a-z replaced by A-Z and everything else kept. */
  function Upper(s: seq<char>): (r: seq<char>)
    ensures |r| == |s|
  {
    if |s| == 0 then [] else [ToUpper(s[0])] + Upper(s[1..])
  }

  /** Each character of the upper-cased string is its own upper case. */
  lemma {:induction false} UpperAt(s: seq<char>)
    ensures forall i :: 0 <= i < |s| ==> Upper(s)[i] == ToUpper(s[i])
  {
    if |s| > 0 {
      UpperAt(s[1..]);
    }
  }

  /** Upper-casing leaves no lower-case letter, keeps NUL and the other
      characters, and is idempotent. */
  lemma UpperSpec(s: seq<char>)
    ensures forall i :: 0 <= i < |s| ==> !('a' <= Upper(s)[i] <= 'z')
    ensures forall i :: 0 <= i < |s| ==> (Upper(s)[i] == NUL <==> s[i] == NUL)
    ensures Upper(Upper(s)) == Upper(s)
  {
    UpperAt(s);
    UpperAt(Upper(s));
  }

  /** cnsampleCommIniStringUpper: upper-cases a-z in place; a null buffer
      gives FAILURE. */
  method StringUpper(a: array?<char>) returns (ok: bool)
    requires a != null ==> NUL in a[..]
    modifies a
    ensures ok <==> a != null
    ensures a != null ==> NUL in a[..] && CStr(a[..]) == Upper(CStr(old(a[..])))
    ensures a != null ==> forall j :: |CStr(old(a[..]))| <= j < a.Length ==> a[j] == old(a[j])
  {
    if a == null {
      return false;
    }
    ghost var s := CStr(a[..]);
    var len := StrLen(a);
    var i := 0;
    while i < len
      invariant 0 <= i <= len
      invariant forall j :: 0 <= j < i ==> a[j] == ToUpper(s[j])
      invariant forall j :: i <= j < a.Length ==> a[j] == old(a[j])
    {
      if 'a' <= a[i] && 'z' >= a[i] {
        a[i] := (a[i] as int - 32) as char;
      }
      i := i + 1;
    }
    UpperAt(s);
    assert a[..len] == Upper(s);
    assert NUL !in Upper(s) by {
      UpperSpec(s);
    }
    CStrAt(a[..], len);
    ok := true;
  }

  // ---------------------------------------------------------------------
  // Lines of the file.

  /** `pat` occurs in `s` at position i. */
  predicate OccursAt(s: seq<char>, pat: seq<char>, i: nat)
  {
    i + |pat| <= |s| && s[i..i + |pat|] == pat
  }

  /** strstr: the first position at or after `from` where `pat` occurs. */
  function IndexFrom(s: seq<char>, pat: seq<char>, from: nat): (r: Option<nat>)
    ensures r.Some? ==> from <= r.value && r.value + |pat| <= |s|
    decreases |s| - from
  {
    if from + |pat| > |s| then None
    else if s[from..from + |pat|] == pat then Some(from)
    else IndexFrom(s, pat, from + 1)
  }

  /** strstr finds the first occurrence at or after `from`, and finds
      nothing only when there is none. */
  lemma {:induction false} IndexFromFirst(s: seq<char>, pat: seq<char>, from: nat)
    ensures var r := IndexFrom(s, pat, from);
      (r.Some? ==> OccursAt(s, pat, r.value)) &&
      (r.Some? ==> forall j :: from <= j < r.value ==> !OccursAt(s, pat, j)) &&
      (r.None? ==> forall j :: from <= j ==> !OccursAt(s, pat, j))
    decreases |s| - from
  {
    if from + |pat| <= |s| && s[from..from + |pat|] != pat {
      IndexFromFirst(s, pat, from + 1);
    }
  }

  function IndexOf(s: seq<char>, pat: seq<char>): Option<nat>
  {
    IndexFrom(s, pat, 0)
  }

  predicate StartsWith(s: seq<char>, p: seq<char>)
  {
    OccursAt(s, p, 0)
  }

  /** A row as read, cut at the first "\r\n", or else at the first "\n". */
  function StripNewline(row: string): string
  {
    match IndexOf(row, "\r\n")
    case Some(k) => row[..k]
    case None =>
      match IndexOf(row, "\n")
      case Some(k) => row[..k]
      case None => row
  }

  /** The name a key or section is compared by: trimmed, upper-cased. */
  function Normalize(s: string): string
  {
    Upper(Trimmed(s))
  }

  /** The section a row opens: a trimmed row longer than two characters
      that starts with '[' and ends with ']', named by what is between. */
  function SectionName(row: string): Option<string>
  {
    var t := Trimmed(StripNewline(row));
    if |t| <= 2 || t[0] != '[' || t[|t| - 1] != ']' then None
    else Some(Normalize(t[1..|t| - 1]))
  }

  /** Where reading continues after the first row at or after `from` whose
      header, as `header` reads it, is `name`. */
  function FindHeader(lines: seq<string>, header: string -> Option<string>, name: string, from: nat): (r: Option<nat>)
    ensures r.Some? ==> from < r.value <= |lines|
    decreases |lines| - from
  {
    if from >= |lines| then None
    else if header(lines[from]) == Some(name) then Some(from + 1)
    else FindHeader(lines, header, name, from + 1)
  }

  /** The search stops right after the first row with the header, and finds
      nothing only when no row at or after `from` has it. */
  lemma {:induction false} FindHeaderFirst(lines: seq<string>, header: string -> Option<string>, name: string, from: nat)
    ensures var r := FindHeader(lines, header, name, from);
      (r.Some? ==> header(lines[r.value - 1]) == Some(name)) &&
      (r.Some? ==> forall j :: from <= j < r.value - 1 ==> header(lines[j]) != Some(name)) &&
      (r.None? ==> forall j :: from <= j < |lines| ==> header(lines[j]) != Some(name))
    decreases |lines| - from
  {
    if from < |lines| && header(lines[from]) != Some(name) {
      FindHeaderFirst(lines, header, name, from + 1);
    }
  }

  /** The section search: rows are read by SectionName. */
  function FindSection(lines: seq<string>, name: string, from: nat): (r: Option<nat>)
    ensures r.Some? ==> from < r.value <= |lines|
  {
    FindHeader(lines, SectionName, name, from)
  }

  /** cnsampleCommIniMoveToSection, for reading: a name longer than
      MAX_SECTION_NAME_LEN fails, and so does a file without the section;
      otherwise the position after its header row. Section names compare
      trimmed and case-insensitively. */
  method MoveToSection(lines: seq<string>, name: string) returns (r: Option<nat>)
    ensures |name| > MAX_SECTION_NAME_LEN ==> r.None?
    ensures |name| <= MAX_SECTION_NAME_LEN ==> r == FindSection(lines, Normalize(name), 0)
  {
    if |name| > MAX_SECTION_NAME_LEN {
      return None;
    }
    var wanted := Normalize(name);
    var i := 0;
    while i < |lines|
      invariant 0 <= i <= |lines|
      invariant FindSection(lines, wanted, i) == FindSection(lines, wanted, 0)
    {
      if SectionName(lines[i]) == Some(wanted) {
        return Some(i + 1);
      }
      i := i + 1;
    }
    return None;
  }

  // ---------------------------------------------------------------------
  // Keys.

  /** What reading one row of a section does. */
  datatype KeyStep =
    | Skip(inComment: bool)     // go on with the next row
    | SectionEnd                // a '[' row: the key is not in the section
    | KeyTooLong                // the text before '=' is over MAX_KEY_NAME_LEN
    | Found(value: string)      // the key's trimmed value

  // One row of the key search, given whether a block comment is open:
  // blank rows are skipped; a row starting with '[' ends the search even
  // inside a comment; a row starting with the comment opener opens a
  // comment unless the closer is on the same row, and inside a comment only
  // a row holding the closer closes it; rows starting with ";", "//", "--"
  // or "#" and rows without '=' are skipped; then the text before the first
  // '=' is compared with the key.
  function KeyRow(row: string, key: string, inComment: bool): (r: KeyStep)
    ensures r.Found? ==> !inComment
    ensures r.Skip? && r.inComment ==> inComment || StartsWith(Trimmed(StripNewline(row)), COMMENT_OPEN)
  {
    var t := Trimmed(StripNewline(row));
    if |t| == 0 then Skip(inComment)
    else if t[0] == '[' then SectionEnd
    else if !inComment && StartsWith(t, COMMENT_OPEN) then Skip(IndexOf(t, COMMENT_CLOSE).None?)
    else if inComment then Skip(IndexOf(t, COMMENT_CLOSE).None?)
    else if StartsWith(t, ";") || StartsWith(t, "//") || StartsWith(t, "--") || StartsWith(t, "#") then Skip(false)
    else
      match IndexOf(t, "=")
      case None => Skip(false)
      case Some(e) =>
        if e > MAX_KEY_NAME_LEN then KeyTooLong
        else if Normalize(t[..e]) != key then Skip(false)
        else Found(Trimmed(t[e + 1..]))
  }

  /** How a key search ends: the value found, if any, and whether a block
      comment is open at that point. */
  datatype SearchEnd = SearchEnd(value: Option<string>, inComment: bool)

  /** The key search from row `i` with the comment state `inComment`. */
  function KeySearch(lines: seq<string>, key: string, i: nat, inComment: bool): (r: SearchEnd)
    ensures r.value.Some? ==> exists j :: i <= j < |lines| && KeyRow(lines[j], key, false) == Found(r.value.value)
    decreases |lines| - i
  {
    if i >= |lines| then SearchEnd(None, inComment)
    else match KeyRow(lines[i], key, inComment)
      case Skip(c) => KeySearch(lines, key, i + 1, c)
      case SectionEnd => SearchEnd(None, inComment)
      case KeyTooLong => SearchEnd(None, inComment)
      case Found(v) => SearchEnd(Some(v), false)
  }

  /** snprintf into a buffer of `size` characters: at most size - 1 of
      them are kept. */
  function Truncate(s: string, size: nat): (r: string)
    ensures size > 0 ==> |r| <= size - 1 && |r| <= |s| && r == s[..|r|]
    ensures size > 0 && |s| < size ==> r == s
  {
    if size == 0 then [] else if |s| < size then s else s[..size - 1]
  }

  /** The row loop of cnsampleCommIniRWKeyValueString, for reading, from
      row `from` with the comment state `inComment`. */
  method ScanKey(lines: seq<string>, key: string, from: nat, inComment: bool)
    returns (value: Option<string>, endComment: bool)
    ensures SearchEnd(value, endComment) == KeySearch(lines, key, from, inComment)
  {
    var i := from;
    var c := inComment;
    while i < |lines|
      invariant from <= i || i == from
      invariant KeySearch(lines, key, i, c) == KeySearch(lines, key, from, inComment)
      decreases |lines| - i
    {
      var step := KeyRow(lines[i], key, c);
      match step
      case Skip(c') =>
        c := c';
        i := i + 1;
      case SectionEnd =>
        return None, c;
      case KeyTooLong =>
        return None, c;
      case Found(v) =>
        return Some(v), false;
    }
    return None, c;
  }

  /** The key reader with its block-comment flag, which the source keeps in
      a function-level static: it survives from one search to the next. */
  class KeyReader {
    var inComment: bool

    constructor()
      ensures !inComment
    {
      inComment := false;
    }

    /** cnsampleCommIniRWKeyValueString, for reading, as written: a key
        name over MAX_KEY_NAME_LEN or a current value over MAX_VALUE_LEN
        fails at once; otherwise the search starts in whatever comment state
        the previous search left, and the value found is cut to the
        buffer. */
    method ReadKeyAsWritten(lines: seq<string>, key: string, current: string, from: nat, bufSize: nat)
      returns (r: Option<string>)
      modifies this
      ensures |key| > MAX_KEY_NAME_LEN || |current| > MAX_VALUE_LEN ==> r.None? && inComment == old(inComment)
      ensures |key| <= MAX_KEY_NAME_LEN && |current| <= MAX_VALUE_LEN ==>
        var e := KeySearch(lines, Normalize(key), from, old(inComment));
        inComment == e.inComment &&
        r == (if e.value.Some? then Some(Truncate(e.value.value, bufSize)) else None)
    {
      if |key| > MAX_KEY_NAME_LEN || |current| > MAX_VALUE_LEN {
        return None;
      }
      var v, c := ScanKey(lines, Normalize(key), from, inComment);
      inComment := c;
      r := if v.Some? then Some(Truncate(v.value, bufSize)) else None;
    }
  }

  /** The key search with the comment state starting closed on every call,
      as a search of one section evidently intends. */
  function ReadKey(lines: seq<string>, key: string, current: string, from: nat, bufSize: nat): (r: Option<string>)
    ensures |key| > MAX_KEY_NAME_LEN || |current| > MAX_VALUE_LEN ==> r.None?
    ensures r.Some? ==> bufSize > 0 ==> |r.value| < bufSize
    ensures r.Some? ==> exists j, v ::
      (from <= j < |lines| && KeyRow(lines[j], Normalize(key), false) == Found(v) && r.value == Truncate(v, bufSize))
  {
    if |key| > MAX_KEY_NAME_LEN || |current| > MAX_VALUE_LEN then None
    else
      var e := KeySearch(lines, Normalize(key), from, false);
      if e.value.Some? then Some(Truncate(e.value.value, bufSize)) else None
  }

  /** The rows of a file whose section [a] holds a commented-out section
      [old], followed by a section [b] with the key x. */
  function StaleCommentFile(): seq<string>
  {
    ["[a]", COMMENT_OPEN, "[old]", COMMENT_CLOSE, "[b]", "x = 1"]
  }

  lemma TrimmedAsIs(s: string)
    requires |s| > 0 && !Blank(s[0]) && !Blank(s[|s| - 1])
    ensures Trimmed(s) == s
  {
    DropLeadingAt(s, 0);
    DropTrailingAt(s, |s|);
  }

  lemma NoNewline(s: string)
    requires forall i :: 0 <= i < |s| ==> s[i] != '\n'
    ensures StripNewline(s) == s
  {
    IndexFromFirst(s, "\r\n", 0);
    IndexFromFirst(s, "\n", 0);
    forall j | 0 <= j && j + 2 <= |s| ensures !OccursAt(s, "\r\n", j) {
      assert s[j..j + 2][1] == s[j + 1];
    }
    forall j | 0 <= j && j + 1 <= |s| ensures !OccursAt(s, "\n", j) {
      assert s[j..j + 1][0] == s[j];
    }
  }

  /** Looking for y in [a] runs into the commented-out header and stops
      with the comment still open. */
  lemma SearchInAEndsInComment()
    ensures KeySearch(StaleCommentFile(), "Y", 1, false) == SearchEnd(None, true)
  {
    var lines := StaleCommentFile();
    NoNewline(lines[1]);
    TrimmedAsIs(lines[1]);
    assert IndexOf(COMMENT_OPEN, COMMENT_CLOSE).None? by {
      IndexFromFirst(COMMENT_OPEN, COMMENT_CLOSE, 0);
      assert !OccursAt(COMMENT_OPEN, COMMENT_CLOSE, 0);
    }
    assert KeyRow(lines[1], "Y", false) == Skip(true);
    NoNewline(lines[2]);
    TrimmedAsIs(lines[2]);
    assert KeyRow(lines[2], "Y", true) == SectionEnd;
  }

  /** The row "x = 1" is read as it stands, has no comment closer and has
      its '=' at index 2. */
  lemma RowOfBShape()
    ensures var row := StaleCommentFile()[5];
      Trimmed(StripNewline(row)) == row && IndexOf(row, COMMENT_CLOSE).None? && IndexOf(row, "=") == Some(2)
  {
    var row := StaleCommentFile()[5];
    NoNewline(row);
    TrimmedAsIs(row);
    NoCloserIn(row);
    EqualsAtTwo(row);
  }

  lemma NoCloserIn(row: string)
    requires row == "x = 1"
    ensures IndexOf(row, COMMENT_CLOSE).None?
  {
    IndexFromFirst(row, COMMENT_CLOSE, 0);
    forall j | 0 <= j ensures !OccursAt(row, COMMENT_CLOSE, j) {
      if j + 2 <= |row| {
        assert row[j..j + 2][0] == row[j] != '*';
      }
    }
  }

  lemma EqualsAtTwo(row: string)
    requires row == "x = 1"
    ensures IndexOf(row, "=") == Some(2)
  {
    IndexFromFirst(row, "=", 0);
    assert !OccursAt(row, "=", 0) by {
      assert row[0..1][0] == 'x';
    }
    assert !OccursAt(row, "=", 1) by {
      assert row[1..2][0] == ' ';
    }
    assert OccursAt(row, "=", 2) by {
      assert row[2..3] == "=";
    }
  }

  lemma FirstCharDiffers(s: seq<char>, p: seq<char>)
    requires |s| > 0 && |p| > 0 && s[0] != p[0]
    ensures !StartsWith(s, p)
  {
    if |p| <= |s| {
      assert s[..|p|][0] != p[0];
    }
  }

  /** The key and the value of the row "x = 1". */
  lemma RowOfBParts(row: string)
    requires row == "x = 1"
    ensures Normalize(row[..2]) == "X" && Trimmed(row[3..]) == "1"
  {
    assert row[..2] == "x ";
    assert Trimmed("x ") == "x" by {
      DropLeadingAt("x ", 0);
      DropTrailingAt("x ", 1);
      assert "x "[..1] == "x";
    }
    assert row[3..] == " 1";
    assert Trimmed(" 1") == "1" by {
      DropLeadingAt(" 1", 1);
      TrimmedAsIs("1");
      assert " 1"[1..] == "1";
    }
  }

  /** Inside [b], the row "x = 1" holds key X with value "1". */
  lemma RowOfB()
    ensures KeyRow(StaleCommentFile()[5], "X", false) == Found("1")
  {
    var row := StaleCommentFile()[5];
    RowOfBShape();
    FirstCharDiffers(row, COMMENT_OPEN);
    FirstCharDiffers(row, ";");
    FirstCharDiffers(row, "//");
    FirstCharDiffers(row, "--");
    FirstCharDiffers(row, "#");
    RowOfBParts(row);
  }

  /** With a comment taken to be open, the same row is skipped and the
      comment stays open. */
  lemma RowOfBInComment()
    ensures KeyRow(StaleCommentFile()[5], "X", true) == Skip(true)
  {
    RowOfBShape();
  }

  lemma NormalizeSingle(c: char, u: char)
    requires !Blank(c) && ToUpper(c) == u
    ensures Normalize([c]) == [u]
  {
    TrimmedAsIs([c]);
  }

  /** The reader as written misses x in [b] after the search in [a]; the
      search that starts with the comment closed finds it. */
  method StaleCommentHidesKey() returns (asWritten: Option<string>, corrected: Option<string>)
    ensures asWritten.None? && corrected == Some("1")
  {
    var lines := StaleCommentFile();
    var reader := new KeyReader();
    NormalizeSingle('y', 'Y');
    SearchInAEndsInComment();
    var first := reader.ReadKeyAsWritten(lines, "y", "", 1, 256);
    assert first.None? && reader.inComment;
    NormalizeSingle('x', 'X');
    RowOfB();
    RowOfBInComment();
    asWritten := reader.ReadKeyAsWritten(lines, "x", "", 5, 256);
    corrected := ReadKey(lines, "x", "", 5, 256);
  }

  // ---------------------------------------------------------------------
  // Numbers.

  /** The white space atoi skips. */
  predicate Space(c: char)
  {
    c == ' ' || c == '\t' || c == '\n' || c == 11 as char || c == 12 as char || c == '\r'
  }

  predicate Digit(c: char)
  {
    '0' <= c <= '9'
  }

  /** The value of the leading digits of `s`, scanned left to right, with
      `acc` the value so far. */
  function DigitsValue(s: string, acc: nat): nat
  {
    if |s| == 0 || !Digit(s[0]) then acc
    else DigitsValue(s[1..], acc * 10 + (s[0] as int - '0' as int))
  }

  /** atoi: leading white space, an optional sign, then the digits; no
      digits gives 0. */
  function Atoi(s: string): int
  {
    if |s| > 0 && Space(s[0]) then Atoi(s[1..])
    else if |s| > 0 && s[0] == '-' then 0 - DigitsValue(s[1..], 0) as int
    else if |s| > 0 && s[0] == '+' then DigitsValue(s[1..], 0)
    else DigitsValue(s, 0)
  }

  /** %d of a natural number. */
  function DecimalString(n: nat): (r: string)
    ensures |r| > 0 && forall i :: 0 <= i < |r| ==> Digit(r[i])
    decreases n
  {
    if n < 10 then [('0' as int + n) as char]
    else DecimalString(n / 10) + [('0' as int + n % 10) as char]
  }

  lemma {:induction false} DigitsValueAppend(s: string, acc: nat, c: char)
    requires forall i :: 0 <= i < |s| ==> Digit(s[i])
    requires Digit(c)
    ensures DigitsValue(s + [c], acc) == DigitsValue(s, acc) * 10 + (c as int - '0' as int)
    decreases |s|
  {
    if |s| == 0 {
      assert (s + [c])[1..] == [];
    } else {
      assert (s + [c])[1..] == s[1..] + [c];
      DigitsValueAppend(s[1..], acc * 10 + (s[0] as int - '0' as int), c);
    }
  }

  lemma {:induction false} DigitsOfDecimal(n: nat)
    ensures DigitsValue(DecimalString(n), 0) == n
    decreases n
  {
    if n >= 10 {
      DigitsOfDecimal(n / 10);
      DigitsValueAppend(DecimalString(n / 10), 0, ('0' as int + n % 10) as char);
    }
  }

  /** atoi reads back what %d writes, with or without a minus sign. */
  lemma AtoiOfDecimal(n: nat)
    ensures Atoi(DecimalString(n)) == n
    ensures Atoi("-" + DecimalString(n)) == 0 - n as int
  {
    DigitsOfDecimal(n);
    assert ("-" + DecimalString(n))[1..] == DecimalString(n);
  }

  // ---------------------------------------------------------------------
  // Integer keys and the sensor table.

  /** The size of the value buffer cnsampleCommGetIniKeyInt reads into. */
  const INT_VALUE_BUF: nat := MAX_VALUE_LEN + 1

  /** The integer under `key` in `section`, if the section and the key are
      there. */
  function LookupInt(lines: seq<string>, section: string, key: string): Option<int>
  {
    if |section| > MAX_SECTION_NAME_LEN then None
    else match FindSection(lines, Normalize(section), 0)
      case None => None
      case Some(k) =>
        match ReadKey(lines, key, "", k, INT_VALUE_BUF)
        case None => None
        case Some(v) => Some(Atoi(v))
  }

  /** cnsampleCommGetIniKeyInt: the result starts as the default; a file
      that cannot be opened (`file` None), a missing section and a missing
      key fail and leave it there; otherwise it is the value read through
      atoi. */
  method GetIniKeyInt(file: Option<seq<string>>, section: string, key: string, default: int)
    returns (ok: bool, value: int)
    ensures ok <==> file.Some? && LookupInt(file.value, section, key).Some?
    ensures value == if ok then LookupInt(file.value, section, key).value else default
  {
    value := default;
    if file.None? {
      return false, value;
    }
    var offset := MoveToSection(file.value, section);
    if offset.None? {
      return false, value;
    }
    var text := ReadKey(file.value, key, "", offset.value, INT_VALUE_BUF);
    if text.None? {
      return false, value;
    }
    value := Atoi(text.value);
    ok := true;
  }

  /** One sensor's settings (cnsampleSensorInfo_t); MipiDev and SnsClkId
      are unsigned 32-bit fields. */
  datatype SensorInfo = SensorInfo(snsType: int, snsId: nat, busId: int, mipiDev: nat, snsClkId: nat)

  /** The section of sensor i: "sensor.<i>". */
  function SensorSection(i: nat): string
  {
    "sensor." + DecimalString(i)
  }

  /** Sensor i's settings, if all four keys are in its section. */
  function SensorAt(lines: seq<string>, i: nat): Option<SensorInfo>
  {
    var t := LookupInt(lines, SensorSection(i), KEY_TYPE);
    var m := LookupInt(lines, SensorSection(i), KEY_MIPI_DEV);
    var b := LookupInt(lines, SensorSection(i), KEY_BUS_ID);
    var c := LookupInt(lines, SensorSection(i), KEY_SNS_CLK_ID);
    if t.None? || m.None? || b.None? || c.None? then None
    else Some(SensorInfo(t.value, i, b.value, U32(m.value), U32(c.value)))
  }

  /** Sensor i can be used: its settings are there and its MIPI device is
      at most 5. */
  predicate SensorOk(lines: seq<string>, i: nat)
  {
    SensorAt(lines, i).Some? && CheckSensorCfg(SensorAt(lines, i).value)
  }

  /** cnsampleCommGetSingleSensorCfg: Type, MipiDev, BusID and SnsClkId
      from section "sensor.<i>", each read with default 0; the first missing
      one fails. */
  method GetSingleSensorCfg(file: Option<seq<string>>, i: nat) returns (ok: bool, info: SensorInfo)
    requires file.Some?
    ensures ok <==> SensorAt(file.value, i).Some?
    ensures ok ==> SensorAt(file.value, i) == Some(info)
  {
    info := SensorInfo(0, i, 0, 0, 0);
    var okT, snsType := GetIniKeyInt(file, SensorSection(i), KEY_TYPE, 0);
    if !okT {
      return false, info;
    }
    var okM, mipi := GetIniKeyInt(file, SensorSection(i), KEY_MIPI_DEV, 0);
    if !okM {
      return false, info;
    }
    var okB, bus := GetIniKeyInt(file, SensorSection(i), KEY_BUS_ID, 0);
    if !okB {
      return false, info;
    }
    var okC, clk := GetIniKeyInt(file, SensorSection(i), KEY_SNS_CLK_ID, 0);
    if !okC {
      return false, info;
    }
    info := SensorInfo(snsType, i, bus, U32(mipi), U32(clk));
    ok := true;
  }

  /** cnsampleCommCheckSensorCfg: a MIPI device above 5 is refused. */
  predicate CheckSensorCfg(info: SensorInfo)
  {
    info.mipiDev <= 5
  }

  /** cnsampleCommGetSensorCfg: with the file present, SensorNum from
      [SensorConfig] must lie in 1..maxDevNum (VI_MAX_DEV_NUM), and each
      sensor's section must hold its four keys with a MIPI device of at
      most 5; the sensors are filled in order and the first failure stops
      the reading. */
  method GetSensorCfg(file: Option<seq<string>>, maxDevNum: nat) returns (ok: bool, num: int, sensors: seq<SensorInfo>)
    ensures file.None? ==> !ok && sensors == []
    ensures file.Some? ==>
      var lines := file.value;
      var n := LookupInt(lines, SECTION_SENSOR_CONFIG, KEY_SENSOR_NUM);
      (ok <==> n.Some? && 0 < n.value <= maxDevNum && forall i :: 0 <= i < n.value ==> SensorOk(lines, i)) &&
      (ok ==> num == n.value && |sensors| == num) &&
      Recorded(lines, sensors)
  {
    sensors := [];
    num := 0;
    if file.None? {
      return false, num, sensors;
    }
    var lines := file.value;
    var found;
    found, num := GetIniKeyInt(file, SECTION_SENSOR_CONFIG, KEY_SENSOR_NUM, 0);
    if !found {
      return false, num, sensors;
    }
    if num <= 0 || num > maxDevNum {
      return false, num, sensors;
    }
    ok, sensors := ReadSensors(lines, num);
  }

  /** `sensors` holds, in order, the settings of the first sensors, each
      of which passes the check. */
  predicate Recorded(lines: seq<string>, sensors: seq<SensorInfo>)
  {
    forall i :: 0 <= i < |sensors| ==> SensorAt(lines, i) == Some(sensors[i]) && CheckSensorCfg(sensors[i])
  }

  lemma RecordedSnoc(lines: seq<string>, sensors: seq<SensorInfo>, info: SensorInfo)
    requires Recorded(lines, sensors)
    requires SensorAt(lines, |sensors|) == Some(info) && CheckSensorCfg(info)
    ensures Recorded(lines, sensors + [info])
  {
    var good := (i: nat, s: SensorInfo) => SensorAt(lines, i) == Some(s) && CheckSensorCfg(s);
    assert forall i :: 0 <= i < |sensors| ==> good(i, sensors[i]);
    EveryIndexSnoc(sensors, info, good);
  }

  lemma EveryIndexSnoc<T>(xs: seq<T>, x: T, good: (nat, T) -> bool)
    requires forall i :: 0 <= i < |xs| ==> good(i, xs[i])
    requires good(|xs|, x)
    ensures forall i :: 0 <= i < |xs| + 1 ==> good(i, (xs + [x])[i])
  {
    forall i | 0 <= i < |xs| + 1 ensures good(i, (xs + [x])[i]) {
      if i < |xs| {
        assert (xs + [x])[i] == xs[i];
      }
    }
  }

  /** The loop of cnsampleCommGetSensorCfg over sensors 0..num-1: each is
      read and checked in turn, and the first failure stops it. */
  method ReadSensors(lines: seq<string>, num: nat) returns (ok: bool, sensors: seq<SensorInfo>)
    ensures ok <==> forall i :: 0 <= i < num ==> SensorOk(lines, i)
    ensures ok ==> |sensors| == num
    ensures |sensors| <= num
    ensures Recorded(lines, sensors)
  {
    sensors := [];
    var i := 0;
    while i < num
      invariant 0 <= i <= num && |sensors| == i
      invariant Recorded(lines, sensors)
    {
      var okSensor, info := GetSingleSensorCfg(Some(lines), i);
      if !okSensor || !CheckSensorCfg(info) {
        assert !SensorOk(lines, i);
        return false, sensors;
      }
      RecordedSnoc(lines, sensors, info);
      sensors := sensors + [info];
      i := i + 1;
    }
    ok := true;
  }
}
