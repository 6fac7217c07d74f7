/**
 * The names the inference server gives its annotated images: the
 * timestamped file name, the path it is written to, the URL handed back to
 * the client, and the route that maps that URL back to a file name.
 */
module OutputNames {
  import opened Wrappers

  const OUTPUT_DIR: string := "output_images"
  const URL_PREFIX: string := "/output_images/"
  const NAME_PREFIX: string := "prediction_"
  const NAME_SUFFIX: string := ".jpg"

  /** The fields `datetime.now()` contributes to the `%Y%m%d_%H%M%S` format. */
  datatype Timestamp = Timestamp(year: int, month: int, day: int, hour: int, minute: int, second: int)

  /** Field ranges of a `datetime`, with a four-digit year. */
  predicate ValidTimestamp(t: Timestamp)
  {
    && 1000 <= t.year <= 9999
    && 1 <= t.month <= 12
    && 1 <= t.day <= 31
    && 0 <= t.hour <= 23
    && 0 <= t.minute <= 59
    && 0 <= t.second <= 59
  }

  function Pow10(w: nat): nat
  {
    if w == 0 then 1 else 10 * Pow10(w - 1)
  }

  predicate IsDigit(c: char)
  {
    '0' <= c <= '9'
  }

  predicate AllDigits(s: string)
  {
    forall i :: 0 <= i < |s| ==> IsDigit(s[i])
  }

  function DigitChar(d: nat): char
    requires d < 10
  {
    ('0' as int + d) as char
  }

  /** `n` in decimal, zero-padded to exactly `w` digits, as `%0wd` prints it. */
  function Digits(n: nat, w: nat): (r: string)
    requires n < Pow10(w)
    ensures |r| == w
    ensures AllDigits(r)
  {
    if w == 0 then []
    else
      assert n / 10 < Pow10(w - 1);
      Digits(n / 10, w - 1) + [DigitChar(n % 10)]
  }

  /** The value of a string of decimal digits. */
  function ParseDigits(s: string): nat
    requires AllDigits(s)
  {
    if s == [] then 0
    else 10 * ParseDigits(s[..|s| - 1]) + (s[|s| - 1] as int - '0' as int)
  }

  /** Zero-padded printing is undone by reading the digits back. */
  lemma {:induction false} DigitsRoundTrip(n: nat, w: nat)
    requires n < Pow10(w)
    ensures ParseDigits(Digits(n, w)) == n
  {
    if w > 0 {
      var s := Digits(n, w);
      assert n / 10 < Pow10(w - 1);
      assert s[..|s| - 1] == Digits(n / 10, w - 1);
      DigitsRoundTrip(n / 10, w - 1);
    }
  }

  /** `%Y%m%d` (or `%H%M%S`): three zero-padded fields side by side. */
  function Fields(x: nat, wx: nat, y: nat, wy: nat, z: nat, wz: nat): string
    requires x < Pow10(wx) && y < Pow10(wy) && z < Pow10(wz)
  {
    Digits(x, wx) + Digits(y, wy) + Digits(z, wz)
  }

  /** Reads back three digit fields, the first `wx` and the next `wy` wide. */
  function ParseFields(s: string, wx: nat, wy: nat): Option<(nat, nat, nat)>
  {
    if wx + wy <= |s| && AllDigits(s[..wx]) && AllDigits(s[wx..wx + wy]) && AllDigits(s[wx + wy..])
    then Some((ParseDigits(s[..wx]), ParseDigits(s[wx..wx + wy]), ParseDigits(s[wx + wy..])))
    else None
  }

  lemma FieldsRoundTrip(x: nat, wx: nat, y: nat, wy: nat, z: nat, wz: nat)
    requires x < Pow10(wx) && y < Pow10(wy) && z < Pow10(wz)
    ensures ParseFields(Fields(x, wx, y, wy, z, wz), wx, wy) == Some((x, y, z))
  {
    var s := Fields(x, wx, y, wy, z, wz);
    assert s[..wx] == Digits(x, wx);
    assert s[wx..wx + wy] == Digits(y, wy);
    assert s[wx + wy..] == Digits(z, wz);
    DigitsRoundTrip(x, wx);
    DigitsRoundTrip(y, wy);
    DigitsRoundTrip(z, wz);
  }

  /** `strftime('%Y%m%d_%H%M%S')`. */
  function Stamp(t: Timestamp): (r: string)
    requires ValidTimestamp(t)
    ensures |r| == 15
  {
    Fields(t.year, 4, t.month, 2, t.day, 2) + "_" + Fields(t.hour, 2, t.minute, 2, t.second, 2)
  }

  /** `output_filename = f'prediction_{timestamp}.jpg'` in server/server.py. */
  function Filename(t: Timestamp): (r: string)
    requires ValidTimestamp(t)
    ensures |r| == 30
    ensures r[0] != '/'
  {
    NAME_PREFIX + Stamp(t) + NAME_SUFFIX
  }

  /** Reads the timestamp back out of a name of the `prediction_YYYYMMDD_HHMMSS.jpg` shape. */
  function ParseFilename(s: string): Option<Timestamp>
  {
    if |s| == 30 && s[..11] == NAME_PREFIX && s[19] == '_' && s[26..] == NAME_SUFFIX then
      match (ParseFields(s[11..19], 4, 2), ParseFields(s[20..26], 2, 2))
      case (Some(date), Some(time)) => Some(Timestamp(date.0, date.1, date.2, time.0, time.1, time.2))
      case _ => None
    else None
  }

  /** The file name records its whole timestamp: parsing it gives the timestamp back. */
  lemma FilenameRoundTrip(t: Timestamp)
    requires ValidTimestamp(t)
    ensures ParseFilename(Filename(t)) == Some(t)
  {
    var date := Fields(t.year, 4, t.month, 2, t.day, 2);
    var time := Fields(t.hour, 2, t.minute, 2, t.second, 2);
    var stamp := Stamp(t);
    var s := Filename(t);
    assert s[..11] == NAME_PREFIX;
    assert s[11..26] == stamp;
    assert s[26..] == NAME_SUFFIX;
    assert stamp[..8] == date && stamp[8] == '_' && stamp[9..] == time;
    assert s[11..19] == stamp[..8];
    assert s[20..26] == stamp[9..];
    FieldsRoundTrip(t.year, 4, t.month, 2, t.day, 2);
    FieldsRoundTrip(t.hour, 2, t.minute, 2, t.second, 2);
  }

  /**
   * Requests in different seconds get different files, and two requests in
   * the same second get the same one.
   */
  lemma FilenameInjective(a: Timestamp, b: Timestamp)
    requires ValidTimestamp(a) && ValidTimestamp(b)
    ensures Filename(a) == Filename(b) <==> a == b
  {
    FilenameRoundTrip(a);
    FilenameRoundTrip(b);
  }

  /** `os.path.join(a, b)` on POSIX (`posixpath.join`) for one component. */
  function Join(a: string, b: string): (r: string)
    ensures |b| > 0 && b[0] == '/' ==> r == b
  {
    if |b| > 0 && b[0] == '/' then b
    else if a == [] || a[|a| - 1] == '/' then a + b
    else a + "/" + b
  }

  /** `os.path.join(OUTPUT_DIR, name)`: where the image is written and where it is served from. */
  function OutputPath(name: string): string
  {
    Join(OUTPUT_DIR, name)
  }

  /** A relative name lands inside the output directory, and different names land on different paths. */
  lemma OutputPathInDirectory(name: string, other: string)
    requires name != [] && name[0] != '/'
    requires other != [] && other[0] != '/'
    ensures OutputPath(name) == OUTPUT_DIR + "/" + name
    ensures OutputPath(name) == OutputPath(other) <==> name == other
  {
    assert OutputPath(name) == OUTPUT_DIR + "/" + name;
    assert OutputPath(other) == OUTPUT_DIR + "/" + other;
    if OutputPath(name) == OutputPath(other) {
      assert name == OutputPath(name)[14..];
    }
  }

  /** `s.split('/')`: the pieces between slashes, empty ones included. */
  function Split(s: string): (r: seq<string>)
    ensures |r| >= 1
  {
    if s == [] then [[]]
    else
      var rest := Split(s[1..]);
      if s[0] == '/' then [[]] + rest else [[s[0]] + rest[0]] + rest[1..]
  }

  /** `'/'.join(parts)` */
  function JoinParts(parts: seq<string>): string
  {
    if parts == [] then []
    else if |parts| == 1 then parts[0]
    else parts[0] + "/" + JoinParts(parts[1..])
  }

  /**
   * The name under which the file system knows a resolved path: `/` in front
   * of an absolute one, the kept components joined with slashes.
   */
  function Key(kept: seq<string>, absolute: bool): string
  {
    (if absolute then "/" else "") + JoinParts(kept)
  }

  /**
   * Whether the resolved prefix `kept` is a directory: the starting
   * directory (the working directory, or `/`) and its ancestors always
   * are; below them, only the paths in `dirs`.
   */
  predicate IsDirectory(kept: seq<string>, absolute: bool, dirs: set<string>)
  {
    kept == [] || kept[|kept| - 1] == ".." || Key(kept, absolute) in dirs
  }

  /**
   * The kernel's lookup of a path, component by component: every further
   * component, even an empty or `.` one, is looked up in what has been
   * resolved so far, which must therefore be a directory (else the lookup
   * fails, as with `FileNotFoundError` or `NotADirectoryError`). `..` then
   * steps to the parent; above the starting directory of a relative path
   * it is kept, and at `/` it stays at `/`.
   */
  function Walk(parts: seq<string>, kept: seq<string>, absolute: bool, dirs: set<string>): Option<seq<string>>
  {
    if parts == [] then Some(kept)
    else if !IsDirectory(kept, absolute, dirs) then None
    else
      var c := parts[0];
      if c == [] || c == "." then Walk(parts[1..], kept, absolute, dirs)
      else if c != ".." then Walk(parts[1..], kept + [c], absolute, dirs)
      else if kept != [] && kept[|kept| - 1] != ".." then Walk(parts[1..], kept[..|kept| - 1], absolute, dirs)
      else if absolute then Walk(parts[1..], kept, absolute, dirs)
      else Walk(parts[1..], kept + [c], absolute, dirs)
  }

  /**
   * The file `open(path)` reaches, under its resolved name, or `None` when
   * the lookup fails on the way; symbolic links are not followed.
   */
  function Locate(path: string, dirs: set<string>): Option<string>
  {
    if path == [] then None
    else
      match Walk(Split(path), [], path[0] == '/', dirs)
      case None => None
      case Some(kept) => Some(Key(kept, path[0] == '/'))
  }

  /** A single path component: no slash, and neither `.` nor `..`. */
  predicate PlainName(name: string)
  {
    name != [] && '/' !in name && name != "." && name != ".."
  }

  lemma {:induction false} SplitNoSlash(s: string)
    requires '/' !in s
    ensures Split(s) == [s]
  {
    if s != [] {
      assert '/' !in s[1..] by {
        forall c | c in s[1..] ensures c in s { }
      }
      SplitNoSlash(s[1..]);
      assert [s[0]] + s[1..] == s;
    }
  }

  lemma {:induction false} SplitAfter(a: string, b: string)
    requires '/' !in a
    ensures Split(a + "/" + b) == [a] + Split(b)
  {
    if a == [] {
      assert (a + "/" + b)[1..] == b;
    } else {
      var ab := a + "/" + b;
      assert ab[0] == a[0] && ab[1..] == a[1..] + "/" + b;
      assert '/' !in a[1..] by {
        forall c | c in a[1..] ensures c in a { }
      }
      SplitAfter(a[1..], b);
      assert [a[0]] + a[1..] == a;
    }
  }

  lemma DigitsHaveNoSlash(s: string)
    requires AllDigits(s)
    ensures '/' !in s
  {
    forall i | 0 <= i < |s|
      ensures s[i] != '/'
    {
      assert IsDigit(s[i]);
    }
  }

  lemma NoSlashAppend(a: string, b: string)
    requires '/' !in a && '/' !in b
    ensures '/' !in a + b
  {
    forall c | c in a + b
      ensures c != '/'
    {
      assert c in a || c in b;
    }
  }

  /** The names `predict` gives its images are single plain components. */
  lemma FilenameIsPlain(t: Timestamp)
    requires ValidTimestamp(t)
    ensures PlainName(Filename(t))
  {
    var date := Fields(t.year, 4, t.month, 2, t.day, 2);
    var time := Fields(t.hour, 2, t.minute, 2, t.second, 2);
    assert AllDigits(date) && AllDigits(time);
    DigitsHaveNoSlash(date);
    DigitsHaveNoSlash(time);
    NoSlashAppend(date, "_");
    NoSlashAppend(date + "_", time);
    assert Stamp(t) == date + "_" + time;
    NoSlashAppend(NAME_PREFIX, Stamp(t));
    NoSlashAppend(NAME_PREFIX + Stamp(t), NAME_SUFFIX);
  }

  /** `output_images/<c>/<name>` splits into its three components. */
  lemma SplitInDirectory(c: string, name: string)
    requires c != [] && '/' !in c && '/' !in name
    ensures OutputPath(c + "/" + name) == OUTPUT_DIR + "/" + (c + "/" + name)
    ensures Split(OUTPUT_DIR + "/" + (c + "/" + name)) == [OUTPUT_DIR, c, name]
  {
    assert c[0] in c;
    assert (c + "/" + name)[0] == c[0];
    SplitNoSlash(name);
    SplitAfter(c, name);
    SplitAfter(OUTPUT_DIR, c + "/" + name);
  }

  lemma KeyOfRelative(a: string, b: string)
    ensures Key([a], false) == a
    ensures Key([a, b], false) == a + "/" + b
  {
    assert [a, b][1..] == [b];
    assert JoinParts([b]) == b;
    assert JoinParts([a, b]) == a + "/" + b;
    assert [] + JoinParts([a]) == a;
    assert [] + JoinParts([a, b]) == a + "/" + b;
  }

  /** The first step of every lookup under the output directory. */
  lemma WalkIntoOutputDir(rest: seq<string>, dirs: set<string>)
    ensures Walk([OUTPUT_DIR] + rest, [], false, dirs) == Walk(rest, [OUTPUT_DIR], false, dirs)
  {
    assert |OUTPUT_DIR| == 13;
    assert OUTPUT_DIR != [] && OUTPUT_DIR != "." && OUTPUT_DIR != "..";
    assert ([OUTPUT_DIR] + rest)[1..] == rest;
    assert [] + [OUTPUT_DIR] == [OUTPUT_DIR];
  }

  /** Looking up a plain name in the output directory. */
  lemma WalkName(name: string, dirs: set<string>)
    requires PlainName(name)
    ensures Walk([name], [OUTPUT_DIR], false, dirs) == if OUTPUT_DIR in dirs then Some([OUTPUT_DIR, name]) else None
  {
    assert Key([OUTPUT_DIR], false) == OUTPUT_DIR;
    assert [OUTPUT_DIR] + [name] == [OUTPUT_DIR, name];
  }

  /** A plain name joined onto the output directory is found there, if that directory exists. */
  lemma LocatePlainName(name: string, dirs: set<string>)
    requires PlainName(name)
    ensures Locate(OutputPath(name), dirs) == if OUTPUT_DIR in dirs then Some(OUTPUT_DIR + "/" + name) else None
  {
    var path := OUTPUT_DIR + "/" + name;
    assert name[0] in name;
    assert OutputPath(name) == path;
    SplitNoSlash(name);
    SplitAfter(OUTPUT_DIR, name);
    WalkIntoOutputDir([name], dirs);
    WalkName(name, dirs);
    KeyOfRelative(OUTPUT_DIR, name);
  }

  /** The path an image is written to is reached under its own name. */
  lemma WrittenPathLocated(t: Timestamp, dirs: set<string>)
    requires ValidTimestamp(t)
    ensures Locate(OutputPath(Filename(t)), dirs) == if OUTPUT_DIR in dirs then Some(OUTPUT_DIR + "/" + Filename(t)) else None
  {
    FilenameIsPlain(t);
    LocatePlainName(Filename(t), dirs);
  }

  /** `./` in front of a plain name reaches the same file as the name alone. */
  lemma LocateDotSlash(name: string, dirs: set<string>)
    requires PlainName(name)
    ensures Locate(OutputPath("./" + name), dirs) == Locate(OutputPath(name), dirs)
  {
    LocatePlainName(name, dirs);
    SplitInDirectory(".", name);
    assert "./" + name == "." + "/" + name;
    WalkIntoOutputDir([".", name], dirs);
    assert Walk([".", name], [OUTPUT_DIR], false, dirs) == if OUTPUT_DIR in dirs then Walk([name], [OUTPUT_DIR], false, dirs) else None by {
      assert Key([OUTPUT_DIR], false) == OUTPUT_DIR;
      assert [".", name][1..] == [name];
    }
    WalkName(name, dirs);
    KeyOfRelative(OUTPUT_DIR, name);
  }

  /** Looking up `..` and then a plain name from inside the output directory. */
  lemma WalkParent(name: string, dirs: set<string>)
    requires PlainName(name)
    ensures Walk(["..", name], [OUTPUT_DIR], false, dirs) == if OUTPUT_DIR in dirs then Some([name]) else None
  {
    assert Key([OUTPUT_DIR], false) == OUTPUT_DIR;
    assert ["..", name][1..] == [name];
    assert [OUTPUT_DIR][..0] == [];
    assert Walk([name], [], false, dirs) == Some([name]) by {
      assert [] + [name] == [name];
    }
  }

  /** `../` in front of a plain name reaches `name` itself, beside `output_images`. */
  lemma LocateParent(name: string, dirs: set<string>)
    requires PlainName(name)
    ensures Locate(OutputPath("../" + name), dirs) == if OUTPUT_DIR in dirs then Some(name) else None
  {
    SplitInDirectory("..", name);
    assert "../" + name == ".." + "/" + name;
    WalkIntoOutputDir(["..", name], dirs);
    WalkParent(name, dirs);
    KeyOfRelative(name, name);
  }

  /**
   * `<c>/../<name>` reaches `<name>` in the output directory only when
   * `output_images/<c>` is an existing directory: a missing component, or a
   * file, before the `..` makes the lookup fail.
   */
  lemma LocateThroughComponent(c: string, name: string, dirs: set<string>)
    requires PlainName(c) && PlainName(name)
    ensures Locate(OutputPath(c + "/../" + name), dirs)
         == if OUTPUT_DIR + "/" + c in dirs then Locate(OutputPath(name), dirs) else None
  {
    LocatePlainName(name, dirs);
    var rest := ".." + "/" + name;
    assert c + "/../" + name == c + "/" + rest;
    assert c[0] in c;
    assert (c + "/" + rest)[0] == c[0];
    assert OutputPath(c + "/../" + name) == OUTPUT_DIR + "/" + (c + "/" + rest);
    SplitNoSlash(name);
    SplitAfter("..", name);
    SplitAfter(c, rest);
    SplitAfter(OUTPUT_DIR, c + "/" + rest);
    assert Split(OUTPUT_DIR + "/" + (c + "/" + rest)) == [OUTPUT_DIR, c, "..", name];
    assert (OUTPUT_DIR + "/" + (c + "/" + rest))[0] == 'o';
    assert [OUTPUT_DIR] + [c, "..", name] == [OUTPUT_DIR, c, "..", name];
    WalkIntoOutputDir([c, "..", name], dirs);
    KeyOfRelative(OUTPUT_DIR, c);
    KeyOfRelative(OUTPUT_DIR, name);
    if OUTPUT_DIR in dirs {
      assert [OUTPUT_DIR] + [c] == [OUTPUT_DIR, c];
      assert [c, "..", name][1..] == ["..", name];
      assert Walk([c, "..", name], [OUTPUT_DIR], false, dirs) == Walk(["..", name], [OUTPUT_DIR, c], false, dirs);
      assert [OUTPUT_DIR, c][..1] == [OUTPUT_DIR];
      assert ["..", name][1..] == [name];
      assert IsDirectory([OUTPUT_DIR, c], false, dirs) <==> OUTPUT_DIR + "/" + c in dirs;
      assert Walk(["..", name], [OUTPUT_DIR, c], false, dirs)
          == if OUTPUT_DIR + "/" + c in dirs then Walk([name], [OUTPUT_DIR], false, dirs) else None;
      WalkName(name, dirs);
    }
  }

  /** `../<name>` reaches a file that no generated name is written to. */
  lemma ParentEscapes(name: string, dirs: set<string>)
    requires PlainName(name)
    ensures forall t :: ValidTimestamp(t) ==> Locate(OutputPath(Filename(t)), dirs) != Some(name)
  {
    forall t | ValidTimestamp(t)
      ensures Locate(OutputPath(Filename(t)), dirs) != Some(name)
    {
      WrittenPathLocated(t, dirs);
      var written := OUTPUT_DIR + "/" + Filename(t);
      assert written[13] == '/';
      assert written[13] in written;
    }
  }

  /** `image_url = f'/output_images/{output_filename}'`. */
  function ImageUrl(name: string): string
  {
    URL_PREFIX + name
  }

  /**
   * The Flask rule `/output_images/<path:filename>`: the `path` converter
   * takes a non-empty rest that does not start with a slash.
   */
  function Route(url: string): Option<string>
  {
    if |url| > |URL_PREFIX| && url[..|URL_PREFIX|] == URL_PREFIX && url[|URL_PREFIX|] != '/'
    then Some(url[|URL_PREFIX|..])
    else None
  }

  /** The route matches exactly the URLs `ImageUrl` builds from names it accepts, and gives the name back. */
  lemma RouteInvertsImageUrl(url: string, name: string)
    ensures Route(url) == Some(name) <==> url == ImageUrl(name) && name != [] && name[0] != '/'
  {
    if url == ImageUrl(name) {
      assert url[..|URL_PREFIX|] == URL_PREFIX;
      assert url[|URL_PREFIX|..] == name;
    }
    if Route(url) == Some(name) {
      assert url == url[..|URL_PREFIX|] + url[|URL_PREFIX|..];
    }
  }

  /**
   * The URL returned for an image routes back to its file name, and
   * `serve_image` joins that name onto the same path the image was written to.
   */
  lemma ImageUrlServesWrittenPath(t: Timestamp, dirs: set<string>)
    requires ValidTimestamp(t)
    ensures Route(ImageUrl(Filename(t))) == Some(Filename(t))
    ensures OutputPath(Filename(t)) == OUTPUT_DIR + "/" + Filename(t)
    ensures Locate(OutputPath(Filename(t)), dirs) == if OUTPUT_DIR in dirs then Some(OutputPath(Filename(t))) else None
  {
    RouteInvertsImageUrl(ImageUrl(Filename(t)), Filename(t));
    WrittenPathLocated(t, dirs);
  }
}
