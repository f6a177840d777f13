/** What the name of a csv file says: camera, timestamp, offset, seconds, extension. */
module FileNames {
  import opened Decimal
  import opened Delimited
  import opened Packing
  import opened Decoder
  import opened Sql
  import opened WorkList

  /** A name as "Cam_2_20140805100033_2.csv". */
  function FileNameOf(prefix: string, camera: int, timestamp: string, offset: string): string {
    Join([prefix, IntText(camera), timestamp, offset + ".csv"], '_')
  }

  // ---------- extensions ----------

  lemma {:induction false} ExtensionBehind(a: string, b: string)
    requires '.' in b
    ensures Extension(a + b) == Extension(b)
  {
    if a == [] {
      assert a + b == b;
    } else {
      ExtensionBehind(a[1..], b);
      assert (a + b)[1..] == a[1..] + b;
      assert forall c :: c in b ==> c in (a + b)[1..];
    }
  }

  /** The extension is what follows the last dot, and the whole name when there is none. */
  lemma ExtensionOf(stem: string, extension: string)
    requires '.' !in extension
    ensures Extension(stem + ("." + extension)) == extension
    ensures Extension(extension) == extension
  {
    var tail := "." + extension;
    assert tail[0] == '.' && tail[1..] == extension;
    ExtensionBehind(stem, tail);
  }

  // ---------- tokens ----------

  lemma IntTextPlain(n: int)
    ensures '_' !in IntText(n)
  {
    NatTextValue(if n < 0 then -n else n);
  }

  lemma NameTokens(prefix: string, camera: int, timestamp: string, offset: string)
    requires '_' !in prefix && '_' !in timestamp && '_' !in offset
    ensures Tokens(FileNameOf(prefix, camera, timestamp, offset), '_')
         == [prefix, IntText(camera), timestamp, offset + ".csv"]
  {
    hide IntText;
    var tokens := [prefix, IntText(camera), timestamp, offset + ".csv"];
    IntTextPlain(camera);
    TokensOfJoin(tokens, '_');
  }

  lemma NameExtension(prefix: string, camera: int, timestamp: string, offset: string)
    ensures Extension(FileNameOf(prefix, camera, timestamp, offset)) == "csv"
  {
    hide Extension, IntText;
    var last := offset + ".csv";
    assert [prefix, IntText(camera), timestamp, last][1..] == [IntText(camera), timestamp, last];
    assert [IntText(camera), timestamp, last][1..] == [timestamp, last] && [timestamp, last][1..] == [last];
    assert Join([last], '_') == last;
    assert last[|offset|] == '.' && "." + "csv" == ".csv" && '.' !in "csv";
    ExtensionOf(offset, "csv");
    var two := Join([timestamp, last], '_');
    assert two == timestamp + ['_'] + last;
    ExtensionBehind(timestamp + ['_'], last);
    DotBehind(timestamp + ['_'], last);
    var three := Join([IntText(camera), timestamp, last], '_');
    assert three == IntText(camera) + ['_'] + two;
    ExtensionBehind(IntText(camera) + ['_'], two);
    DotBehind(IntText(camera) + ['_'], two);
    ExtensionBehind(prefix + ['_'], three);
  }

  lemma DotBehind(a: string, b: string)
    requires '.' in b
    ensures '.' in a + b
  {
  }

  /** The seconds of a timestamp are its last two digits. */
  lemma SecondsField(timestamp: string)
    requires IsTimestamp(timestamp)
    ensures AllDigits(timestamp[12..]) && Value(timestamp[12..]) == TimeOf(timestamp).sec
  {
    hide Stoi, Value;
    var field := timestamp[12..];
    assert forall c :: c in field ==> c in timestamp;
    assert Sub(timestamp, 12, 2) == field;
    FieldAtoi(field);
  }

  /**
   * Reading a name back: it is well formed; the stamp has its timestamp, its camera and
   * the first three characters of its offset; it is work for the parser its seconds,
   * divided by the number of parsers, leave as a remainder.
   */
  lemma NameReadBack(env: Environment, prefix: string, camera: int, timestamp: string, offset: string, p: int, n: int)
    requires '_' !in prefix && INT_MIN <= camera <= INT_MAX && IsTimestamp(timestamp) && '_' !in offset && n > 0
    ensures var name := FileNameOf(prefix, camera, timestamp, offset);
            var kept := if |offset| <= 3 then offset else offset[..3];
            && WellNamed(name) && Extension(name) == "csv"
            && StampOf(env, name) == Stamp(timestamp, kept, Short(camera), Centisecs(env, timestamp, kept))
            && Seconds(name) == TimeOf(timestamp).sec
            && (Mine(name, p, n) <==> TimeOf(timestamp).sec % n == p)
  {
    hide Stoi, IntText, Extension, FileNameOf, Tokens, Value, TimeOf, Centisecs;
    assert '_' !in timestamp;
    NameTokens(prefix, camera, timestamp, offset);
    NameExtension(prefix, camera, timestamp, offset);
    StoiOfText(camera);
    SecondsField(timestamp);
    assert |timestamp| - 2 == 12;
    assert (offset + ".csv")[..|offset|] == offset;
  }
}
