/**
 * Classification of a template or values location
 * (`Tmplhate.GetReader` in core/tmplhate.go, without the I/O).
 */
module Location {

  /** What `GetReader` opens: nothing, an HTTP response body, or a file. */
  datatype Source = NoReader | Http(url: string) | File(path: string)

  /** The separator "://" begins at index `i` of `s`. */
  predicate SeparatorAt(s: string, i: nat)
  {
    i + 3 <= |s| && s[i..i + 3] == "://"
  }

  /**
   * The first element of `strings.SplitN(s, "://", 2)`: the text before the
   * first "://", or all of `s` when it has none.
   */
  function Protocol(s: string): (proto: string)
    ensures proto <= s
    ensures forall i :: 0 <= i < |proto| ==> !SeparatorAt(s, i)
    ensures |proto| < |s| ==> SeparatorAt(s, |proto|)
  {
    if |s| < 3 then s
    else if s[..3] == "://" then ""
    else
      var rest := Protocol(s[1..]);
      assert s[0..3] == s[..3];
      assert forall i :: 1 <= i <= |rest| ==> (SeparatorAt(s, i) <==> SeparatorAt(s[1..], i - 1)) by {
        forall i | 1 <= i <= |rest| ensures SeparatorAt(s, i) <==> SeparatorAt(s[1..], i - 1) {
          if i + 3 <= |s| { assert s[i..i + 3] == s[1..][i - 1..i + 2]; }
        }
      }
      [s[0]] + rest
  }

  /**
   * The path the file branch opens: "~/rest" is joined onto the home
   * directory, otherwise "../rest" onto the working directory (the ".." is
   * dropped, not resolved), and any other location is used verbatim.
   * `join` stands for `filepath.Join`.
   */
  function ResolvePath(location: string, home: string, cwd: string, join: (string, string) -> string): string
  {
    if "~/" <= location then join(home, location[2..])
    else if "../" <= location then join(cwd, location[3..])
    else location
  }

  /**
   * The branching of `GetReader`: an empty location has no reader, a
   * location whose protocol is exactly "http" is fetched unchanged, and
   * everything else is opened as a file.
   */
  function Classify(location: string, home: string, cwd: string, join: (string, string) -> string): (r: Source)
    ensures r == NoReader <==> location == ""
    ensures r.Http? ==> r.url == location
  {
    if location == "" then NoReader
    else if Protocol(location) == "http" then Http(location)
    else File(ResolvePath(location, home, cwd, join))
  }

  /**
   * The protocol is "http" exactly when the location is the bare word
   * "http" or begins with "http://".
   */
  lemma ProtocolIsHttp(s: string)
    ensures Protocol(s) == "http" <==> s == "http" || "http://" <= s
  {
    var p := Protocol(s);
    if p == "http" {
      if |s| > 4 {
        assert SeparatorAt(s, 4);
        assert s[..7] == s[..4] + s[4..7];
      }
    }
    if s == "http" {
      assert !SeparatorAt(s, 0) && !SeparatorAt(s, 1);
      assert |p| == 4;
    } else if "http://" <= s {
      assert SeparatorAt(s, 4);
      assert forall i :: 0 <= i < 4 ==> !SeparatorAt(s, i) by {
        forall i | 0 <= i < 4 ensures !SeparatorAt(s, i) {
          assert s[i] != ':';
        }
      }
      assert |p| == 4;
    }
  }

  /**
   * `GetReader` stated on the location's text alone: empty gives no
   * reader; "http" or an "http://" prefix gives an HTTP fetch of the
   * unchanged string; otherwise a file, where "~/" takes priority over
   * "../" and any other path is opened as given.
   */
  lemma ClassifyByPrefix(location: string, home: string, cwd: string, join: (string, string) -> string)
    ensures Classify(location, home, cwd, join) ==
      if location == "" then NoReader
      else if location == "http" || "http://" <= location then Http(location)
      else if "~/" <= location then File(join(home, location[2..]))
      else if "../" <= location then File(join(cwd, location[3..]))
      else File(location)
  {
    ProtocolIsHttp(location);
  }

  /** Only plain "http" is fetched: an "https://" location is opened as a file path. */
  lemma HttpsIsOpenedAsFile(rest: string, home: string, cwd: string, join: (string, string) -> string)
    ensures Classify("https://" + rest, home, cwd, join) == File("https://" + rest)
  {
    var location := "https://" + rest;
    ClassifyByPrefix(location, home, cwd, join);
    assert location[4] == 's';
  }
}
