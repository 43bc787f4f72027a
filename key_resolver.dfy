/** Resolution of the defaults `setDefaultParams` fills in before each
    invocation, and the call-site identity the default cache id is hashed
    from. */
module KeyResolver {
  import opened PhpStrings
  import opened CacheTypes

  const DefaultTime := 3600
  const RootPath := "/"

  /** The string the source hashes: file name, start line and end line
      concatenated with nothing between them, so that everything after the
      file name is one run of digits. */
  function LegacyIdentity(site: CallSite): (r: string)
    ensures |site.file| + 2 <= |r| && r[..|site.file|] == site.file
    ensures forall i :: |site.file| <= i < |r| ==> IsDigit(r[i])
  {
    site.file + Decimal(site.startLine) + Decimal(site.endLine)
  }

  /** The decimal forms of the line numbers in the collision below. */
  lemma CollidingLineNumbers()
    ensures Decimal(10) == "10" && Decimal(1112) == "1112"
    ensures Decimal(101) == "101" && Decimal(112) == "112"
  {
    assert Decimal(1) == "1";
    assert Decimal(11) == "11";
    assert Decimal(10) == "10";
    assert Decimal(111) == "111";
  }

  /** Two closures of one file, the second nested in the first, whose
      hash inputs coincide: "a.php" + "10" + "1112" and "a.php" + "101" + "112". */
  lemma LegacyIdentityCollides()
    ensures CallSite("a.php", 10, 1112) != CallSite("a.php", 101, 112)
    ensures LegacyIdentity(CallSite("a.php", 10, 1112)) == LegacyIdentity(CallSite("a.php", 101, 112))
  {
    CollidingLineNumbers();
    assert "a.php" + "10" + "1112" == "a.php" + "101" + "112";
  }

  /** The hash input the model uses: start line, end line and file name
      with a separator that no line number contains. */
  function Identity(site: CallSite): string {
    Decimal(site.startLine) + ":" + Decimal(site.endLine) + ":" + site.file
  }

  /** Splitting "digits:rest" at its first colon recovers both parts. */
  lemma {:induction false} SplitAtColon(d1: string, rest1: string, d2: string, rest2: string)
    requires forall i :: 0 <= i < |d1| ==> IsDigit(d1[i])
    requires forall i :: 0 <= i < |d2| ==> IsDigit(d2[i])
    requires d1 + ":" + rest1 == d2 + ":" + rest2
    ensures d1 == d2 && rest1 == rest2
  {
    var x := d1 + ":" + rest1;
    if |d1| != |d2| {
      ColonFollows(d1, rest1);
      ColonFollows(d2, rest2);
      assert false;
    }
    assert d1 == x[..|d1|] == d2;
    assert rest1 == x[|d1| + 1..] == rest2;
  }

  lemma ColonFollows(d: string, rest: string)
    ensures (d + ":" + rest)[|d|] == ':'
  {
  }

  /** Distinct call sites give distinct hash inputs. */
  lemma IdentityInjective(a: CallSite, b: CallSite)
    requires Identity(a) == Identity(b)
    ensures a == b
  {
    var sa, ea := Decimal(a.startLine), Decimal(a.endLine);
    var sb, eb := Decimal(b.startLine), Decimal(b.endLine);
    assert Identity(a) == sa + ":" + (ea + ":" + a.file);
    assert Identity(b) == sb + ":" + (eb + ":" + b.file);
    SplitAtColon(sa, ea + ":" + a.file, sb, eb + ":" + b.file);
    SplitAtColon(ea, a.file, eb, b.file);
    DecimalInjective(a.startLine, b.startLine);
    DecimalInjective(a.endLine, b.endLine);
  }

  predicate IsHexChar(c: char) {
    '0' <= c <= '9' || 'a' <= c <= 'f'
  }

  /** What `md5` returns: 32 lower-case hexadecimal digits. */
  predicate IsHexDigest(d: string) {
    |d| == 32 && forall i :: 0 <= i < |d| ==> IsHexChar(d[i])
  }

  /** The three defaults are in place: a non-zero time, and an id and a
      path that are not blank. */
  predicate IsResolved(c: Config) {
    c.time != 0 && Trim(c.id) != "" && Trim(c.path) != ""
  }

  /** `setDefaultParams`: a zero time becomes 3600, a blank id becomes the
      trimmed digest of the producer's call site, a blank path becomes "/".
      A field that is already set is kept, and the other fields are not
      touched. */
  function Resolve(c: Config, site: CallSite, md5: string -> string): (r: Config)
    ensures r.time != 0 && (c.time != 0 ==> r.time == c.time)
    ensures Trim(r.path) != "" && (Trim(c.path) != "" ==> r.path == c.path)
    ensures Trim(c.id) != "" ==> r.id == c.id
    ensures r.baseDir == c.baseDir && r.tags == c.tags && r.clearCache == c.clearCache
  {
    TrimUnpadded(RootPath);
    c.(time := if c.time == 0 then DefaultTime else c.time,
       id := if Trim(c.id) == "" then Trim(md5(Identity(site))) else c.id,
       path := if Trim(c.path) == "" then RootPath else c.path)
  }

  /** After resolution the three defaults are in place, the fields that were
      already set are kept, and nothing else changes. */
  lemma ResolveEstablishesDefaults(c: Config, site: CallSite, md5: string -> string)
    requires IsHexDigest(md5(Identity(site)))
    ensures var r := Resolve(c, site, md5);
      && IsResolved(r)
      && (c.time != 0 ==> r.time == c.time)
      && (Trim(c.id) != "" ==> r.id == c.id)
      && (Trim(c.path) != "" ==> r.path == c.path)
      && r.baseDir == c.baseDir && r.tags == c.tags && r.clearCache == c.clearCache
  {
    HexDigestIsTrimmed(md5(Identity(site)));
    TrimUnpadded(RootPath);
  }

  lemma HexDigestIsTrimmed(d: string)
    requires IsHexDigest(d)
    ensures Trim(d) == d && d != ""
  {
    TrimUnpadded(d);
  }

  /** Resolving a second time changes nothing. */
  lemma ResolveIdempotent(c: Config, site: CallSite, md5: string -> string)
    requires IsHexDigest(md5(Identity(site)))
    ensures Resolve(Resolve(c, site, md5), site, md5) == Resolve(c, site, md5)
  {
    ResolveEstablishesDefaults(c, site, md5);
  }

  /** Resolution changes only the fields that were still at their defaults. */
  lemma ResolveKeepsResolved(c: Config, site: CallSite, md5: string -> string)
    requires IsHexDigest(md5(Identity(site)))
    requires IsResolved(c)
    ensures Resolve(c, site, md5) == c
  {
  }

  /** The default id depends on the call site alone: two configurations
      without an id, run with producers defined at one site, get one id;
      producers defined at different sites hash different inputs. */
  lemma DefaultIdFollowsCallSite(c1: Config, c2: Config, p1: Producer, p2: Producer, md5: string -> string)
    requires IsHexDigest(md5(Identity(p1.site))) && IsHexDigest(md5(Identity(p2.site)))
    requires Trim(c1.id) == "" && Trim(c2.id) == ""
    ensures p1.site == p2.site ==> Resolve(c1, p1.site, md5).id == Resolve(c2, p2.site, md5).id
    ensures p1.site != p2.site ==> Identity(p1.site) != Identity(p2.site)
  {
    if Identity(p1.site) == Identity(p2.site) {
      IdentityInjective(p1.site, p2.site);
    }
  }
}
