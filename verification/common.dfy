/** Shared vocabulary of the model: optional values and error returns, exact
    rates kept as a numerator over a denominator, and the string operations the
    Python code relies on (`str.strip`, substring `in`, decimal formatting). */
module Common {

  datatype Option<+T> = None | Some(value: T)

  datatype Result<+T, +E> = Ok(value: T) | Err(error: E) {
    predicate IsFailure() { Err? }

    function PropagateFailure<U>(): Result<U, E>
      requires Err?
    {
      Err(error)
    }

    function Extract(): T
      requires Ok?
    {
      value
    }
  }

  /** A rate or a mean kept exactly: `num / den`. A value the source reports
      as the plain integer 0 is `Ratio(0, 1)`. */
  datatype Ratio = Ratio(num: nat, den: nat)

  function Min(a: nat, b: nat): nat { if a <= b then a else b }

  /** Python's truth value of an optional list: `None` and `[]` are false. */
  predicate Truthy<T>(o: Option<seq<T>>) { o.Some? && |o.value| > 0 }

  /** The characters for which Python's `str.isspace()` holds; these are the
      characters `str.strip()` removes. */
  predicate IsSpace(c: char)
  {
    var k := c as int;
    k == 0x20 || (0x09 <= k <= 0x0D) || (0x1C <= k <= 0x1F) || k == 0x85 || k == 0xA0
    || k == 0x1680 || (0x2000 <= k <= 0x200A) || k == 0x2028 || k == 0x2029
    || k == 0x202F || k == 0x205F || k == 0x3000
  }

  function TrimStart(s: string): string
  {
    if |s| > 0 && IsSpace(s[0]) then TrimStart(s[1..]) else s
  }

  function TrimEnd(s: string): string
  {
    if |s| > 0 && IsSpace(s[|s| - 1]) then TrimEnd(s[..|s| - 1]) else s
  }

  /** `TrimStart` drops a whitespace prefix and stops at the first other character. */
  lemma {:induction false} TrimStartShape(s: string)
    ensures |TrimStart(s)| <= |s| && TrimStart(s) == s[|s| - |TrimStart(s)|..]
    ensures TrimStart(s) != [] ==> !IsSpace(TrimStart(s)[0])
    ensures forall j :: 0 <= j < |s| - |TrimStart(s)| ==> IsSpace(s[j])
  {
    if |s| > 0 && IsSpace(s[0]) {
      TrimStartShape(s[1..]);
    }
  }

  /** `TrimEnd` drops a whitespace suffix and stops at the last other character. */
  lemma {:induction false} TrimEndShape(s: string)
    ensures |TrimEnd(s)| <= |s| && TrimEnd(s) == s[..|TrimEnd(s)|]
    ensures TrimEnd(s) != [] ==> !IsSpace(TrimEnd(s)[|TrimEnd(s)| - 1])
    ensures forall j :: |TrimEnd(s)| <= j < |s| ==> IsSpace(s[j])
  {
    if |s| > 0 && IsSpace(s[|s| - 1]) {
      TrimEndShape(s[..|s| - 1]);
    }
  }

  /** `s.strip()`: the longest infix of `s` that neither starts nor ends
      with a whitespace character. */
  function Strip(s: string): (r: string)
    ensures |r| <= |s|
    ensures r != [] ==> !IsSpace(r[0]) && !IsSpace(r[|r| - 1])
  {
    TrimStartShape(s);
    TrimEndShape(TrimStart(s));
    TrimEnd(TrimStart(s))
  }

  /** How many characters `strip` removes from the front of `s`. */
  function StripOffset(s: string): nat
  {
    TrimStartShape(s);
    |s| - |TrimStart(s)|
  }

  /** What `strip` keeps: an infix of the input whose ends are not
      whitespace, everything cut off on either side being whitespace. */
  lemma StripShape(s: string)
    ensures StripOffset(s) + |Strip(s)| <= |s|
    ensures Strip(s) == s[StripOffset(s)..StripOffset(s) + |Strip(s)|]
    ensures forall j :: 0 <= j < StripOffset(s) ==> IsSpace(s[j])
    ensures forall j :: StripOffset(s) + |Strip(s)| <= j < |s| ==> IsSpace(s[j])
    ensures Strip(s) != [] ==> !IsSpace(Strip(s)[0]) && !IsSpace(Strip(s)[|Strip(s)| - 1])
  {
    var t := TrimStart(s);
    var r := TrimEnd(t);
    var a := StripOffset(s);
    TrimStartShape(s);
    TrimEndShape(t);
    assert t == s[a..];
    forall j | a + |r| <= j < |s| ensures IsSpace(s[j]) {
      assert s[j] == t[j - a];
    }
    if r != [] {
      assert r[0] == t[0];
    }
  }

  /** Stripping a stripped string changes nothing. */
  lemma StripIdempotent(s: string)
    ensures Strip(Strip(s)) == Strip(s)
  {
    var r := Strip(s);
    StripShape(s);
    if r != [] {
      assert TrimStart(r) == r;
      assert TrimEnd(r) == r;
    } else {
      assert TrimStart(r) == r;
    }
  }

  /** A string strips to the empty string exactly when it is all whitespace. */
  lemma StripEmptyIffAllSpace(s: string)
    ensures Strip(s) == [] <==> forall j :: 0 <= j < |s| ==> IsSpace(s[j])
  {
    StripShape(s);
  }

  /** `sub` occurs in `s` starting at index `i`. */
  predicate OccursAt(s: string, sub: string, i: int)
  {
    0 <= i <= |s| - |sub| && s[i..i + |sub|] == sub
  }

  /** Python's substring test `sub in s`. */
  predicate Contains(s: string, sub: string)
  {
    exists i | 0 <= i <= |s| :: OccursAt(s, sub, i)
  }

  /** A string that lacks the first character of `sub` cannot contain `sub`. */
  lemma NotContainsWithoutFirst(s: string, sub: string)
    requires |sub| > 0 && sub[0] !in s
    ensures !Contains(s, sub)
  {
    forall i | 0 <= i <= |s| - |sub| ensures !OccursAt(s, sub, i) {
      assert s[i..i + |sub|][0] == s[i];
    }
  }

  function DigitChar(d: nat): char
    requires d < 10
  {
    "0123456789"[d]
  }

  /** Decimal rendering of a natural number, as Python's f-string `{i}`. */
  function NatToString(n: nat): string
    decreases n
  {
    if n < 10 then [DigitChar(n)] else NatToString(n / 10) + [DigitChar(n % 10)]
  }

  /** `[line.strip() for line in lines]`. */
  function StripLines(lines: seq<string>): (r: seq<string>)
    ensures |r| == |lines|
    ensures forall i :: 0 <= i < |lines| ==> r[i] == Strip(lines[i])
  {
    seq(|lines|, i requires 0 <= i < |lines| => Strip(lines[i]))
  }

  /** Stripping every line twice is the same as stripping it once. */
  lemma StripLinesIdempotent(lines: seq<string>)
    ensures StripLines(StripLines(lines)) == StripLines(lines)
  {
    forall i | 0 <= i < |lines| ensures StripLines(StripLines(lines))[i] == StripLines(lines)[i] {
      StripIdempotent(lines[i]);
    }
  }
}

/** The file system as the scripts see it: which paths exist, which of them
    are directories (with the order `os.listdir` returns their entries in),
    and the lines of each file. */
module FileSystem {
  import opened Common

  datatype Fs = Fs(files: map<string, seq<string>>, dirs: map<string, seq<string>>)

  datatype FsError = FileNotFound(path: string) | NotADirectory(path: string) | FileExists(path: string)

  /** `os.path.exists`. */
  predicate Exists(fs: Fs, p: string) { p in fs.files || p in fs.dirs }

  /** `os.path.isdir`. */
  predicate IsDir(fs: Fs, p: string) { p in fs.dirs }

  /** `os.path.join(a, b)` for a relative `b` and an `a` without a
      trailing slash. */
  function Join(a: string, b: string): string { a + "/" + b }

  /** `os.makedirs(p, exist_ok=True)`: an existing directory is left alone,
      and an existing file raises `FileExistsError`. */
  function MakeDirs(fs: Fs, p: string): (r: Result<Fs, FsError>)
    ensures r.Err? <==> p in fs.files
    ensures r.Err? ==> r.error == FileExists(p)
    ensures r.Ok? ==> IsDir(r.value, p)
    ensures IsDir(fs, p) && p !in fs.files ==> r == Ok(fs)
    ensures r.Ok? ==> r.value.files == fs.files
    ensures r.Ok? ==> forall q :: q != p ==> (q in r.value.dirs <==> q in fs.dirs)
    ensures r.Ok? ==> forall q :: q in fs.dirs ==> q in r.value.dirs && r.value.dirs[q] == fs.dirs[q]
  {
    if p in fs.files then Err(FileExists(p))
    else if IsDir(fs, p) then Ok(fs)
    else Ok(fs.(dirs := fs.dirs[p := []]))
  }

  /** Opening `p` for writing and writing `content` replaces the file. */
  function WriteFile(fs: Fs, p: string, content: seq<string>): (r: Fs)
    ensures p in r.files && r.files[p] == content
    ensures forall q :: q != p ==> (q in r.files <==> q in fs.files)
    ensures forall q :: q != p && q in fs.files ==> r.files[q] == fs.files[q]
    ensures r.dirs == fs.dirs
  {
    fs.(files := fs.files[p := content])
  }
}
