/** The `*IDN?` reply (IEEE 488.2, section 10.14) and how the drivers carve
    it into five cached strings at start-up. The drivers cut the reply at
    its second and third commas and then at the next two slashes, so the
    manufacturer and the model number stay together in `model`. */
module IdnReply {
  import opened Optional
  import opened Strings

  datatype Identity = Identity(model: string, serial: string, digRev: string, dispRev: string, brdRev: string)

  /** Positions of the second and third commas and of the two slashes that
      follow, found as the drivers' chain of `strchr` calls finds them;
      None when one of them is missing. */
  function Delimiters(s: string): Option<(nat, nat, nat, nat)>
  {
    match FindFrom(s, ',', 0)
    case Missing => None
    case At(c1) =>
      match FindFrom(s, ',', c1 + 1)
      case Missing => None
      case At(c2) =>
        match FindFrom(s, ',', c2 + 1)
        case Missing => None
        case At(c3) =>
          match FindFrom(s, '/', c3 + 1)
          case Missing => None
          case At(s1) =>
            match FindFrom(s, '/', s1 + 1)
            case Missing => None
            case At(s2) => Some((c2, c3, s1, s2))
  }

  /** A reply the split can handle: the three commas and two slashes exist. */
  predicate Splittable(s: string) { Delimiters(s).Some? }

  predicate Lacks(s: string, c: char) { forall k | 0 <= k < |s| :: s[k] != c }

  /** Exactly one comma: the first one found is also the last. */
  predicate OneComma(s: string)
  {
    var first := FindFrom(s, ',', 0);
    first.At? && FindFrom(s, ',', first.index + 1).Missing?
  }

  /** The parts the split produces always have these shapes. */
  predicate WellFormed(id: Identity)
  {
    OneComma(id.model) && Lacks(id.serial, ',') && Lacks(id.digRev, '/') && Lacks(id.dispRev, '/')
  }

  /** The reply the five parts come from, built from the back. */
  function Join(id: Identity): string
  {
    id.model + ("," + AfterModel(id))
  }

  function AfterModel(id: Identity): string
  {
    id.serial + ("," + AfterSerial(id))
  }

  function AfterSerial(id: Identity): string
  {
    id.digRev + ("/" + AfterDigRev(id))
  }

  function AfterDigRev(id: Identity): string
  {
    id.dispRev + ("/" + id.brdRev)
  }

  /** The split: the second comma ends the model, the third the serial
      number, and the two slashes the first two revisions. */
  function Split(s: string): Identity
    requires Splittable(s)
  {
    DelimitersOrdered(s);
    var (c2, c3, s1, s2) := Delimiters(s).value;
    Identity(s[..c2], s[c2 + 1..c3], s[c3 + 1..s1], s[s1 + 1..s2], s[s2 + 1..])
  }

  /** The five searches of a splittable reply all succeed, at the positions
      `Delimiters` records, in order, and with no earlier delimiter of the
      same kind between one and the next. */
  lemma Searches(s: string) returns (c1: nat, c2: nat, c3: nat, s1: nat, s2: nat)
    requires Splittable(s)
    ensures FindFrom(s, ',', 0) == At(c1) && FindFrom(s, ',', c1 + 1) == At(c2)
    ensures FindFrom(s, ',', c2 + 1) == At(c3)
    ensures FindFrom(s, '/', c3 + 1) == At(s1) && FindFrom(s, '/', s1 + 1) == At(s2)
    ensures Delimiters(s) == Some((c2, c3, s1, s2))
    ensures c1 < c2 < c3 < s1 < s2 < |s|
    ensures s[c1] == ',' && s[c2] == ',' && s[c3] == ',' && s[s1] == '/' && s[s2] == '/'
    ensures forall k | 0 <= k < c2 && k != c1 :: s[k] != ','
    ensures forall k | c2 < k < c3 :: s[k] != ','
    ensures forall k | c3 < k < s1 :: s[k] != '/'
    ensures forall k | s1 < k < s2 :: s[k] != '/'
  {
    c1 := FindFrom(s, ',', 0).index;
    c2 := FindFrom(s, ',', c1 + 1).index;
    c3 := FindFrom(s, ',', c2 + 1).index;
    s1 := FindFrom(s, '/', c3 + 1).index;
    s2 := FindFrom(s, '/', s1 + 1).index;
    FindFromSpec(s, ',', 0);
    FindFromSpec(s, ',', c1 + 1);
    FindFromSpec(s, ',', c2 + 1);
    FindFromSpec(s, '/', c3 + 1);
    FindFromSpec(s, '/', s1 + 1);
  }

  /** The four cuts, in order, with the delimiter at each: `Searches`
      without the first comma and the searches themselves. */
  lemma Cuts(s: string) returns (c2: nat, c3: nat, s1: nat, s2: nat)
    requires Splittable(s)
    ensures Delimiters(s) == Some((c2, c3, s1, s2)) && c2 < c3 < s1 < s2 < |s|
    ensures s[c2] == ',' && s[c3] == ',' && s[s1] == '/' && s[s2] == '/'
  {
    var c1;
    c1, c2, c3, s1, s2 := Searches(s);
  }

  /** The cuts come in order and inside the reply: `Searches` without its
      positions, for use inside expressions. */
  lemma DelimitersOrdered(s: string)
    requires Splittable(s)
    ensures var (c2, c3, s1, s2) := Delimiters(s).value; c2 < c3 < s1 < s2 < |s|
  {
    var c2, c3, s1, s2 := Cuts(s);
  }

  /** The split cuts where the delimiters are. */
  lemma SplitAt(s: string, c2: nat, c3: nat, s1: nat, s2: nat)
    requires c2 < c3 < s1 < s2 < |s| && Delimiters(s) == Some((c2, c3, s1, s2))
    ensures Split(s) == Identity(s[..c2], s[c2 + 1..c3], s[c3 + 1..s1], s[s1 + 1..s2], s[s2 + 1..])
  {
  }

  /** The searches that stop at the four cuts make the reply splittable there. */
  lemma DelimitersAt(s: string, c1: nat, c2: nat, c3: nat, s1: nat, s2: nat)
    requires FindFrom(s, ',', 0) == At(c1) && FindFrom(s, ',', c1 + 1) == At(c2)
    requires FindFrom(s, ',', c2 + 1) == At(c3)
    requires FindFrom(s, '/', c3 + 1) == At(s1) && FindFrom(s, '/', s1 + 1) == At(s2)
    ensures Delimiters(s) == Some((c2, c3, s1, s2))
  {
  }

  /** Cutting a string at `j` leaves the part before it, the character at
      `j` and the part after it. */
  lemma Cut(s: string, i: nat, j: nat, c: char)
    requires i <= j < |s| && s[j] == c
    ensures s[i..] == s[i..j] + ([c] + s[j + 1..])
  {
  }

  lemma SuffixOfSuffix(s: string, i: nat, j: nat, k: nat)
    requires i + j == k <= |s|
    ensures s[i..][j..] == s[k..]
  {
  }

  lemma PrefixOfSuffix(s: string, i: nat, k: nat, j: nat)
    requires i + k == j <= |s|
    ensures s[i..][..k] == s[i..j]
  {
  }

  /** Searching for the delimiter that ends a part with none of it inside
      finds it right after the part. */
  lemma NextDelimiter(s: string, off: nat, a: string, sep: char, rest: string)
    requires off <= |s| && s[off..] == a + ([sep] + rest)
    requires Lacks(a, sep)
    ensures FindFrom(s, sep, off) == At(off + |a|)
  {
    forall k | off <= k < off + |a| ensures s[k] != sep {
      assert s[k] == s[off..][k - off];
    }
    assert s[off + |a|] == s[off..][|a|];
    FindFromAt(s, sep, off, off + |a|);
  }

  /** The five parts joined back with their delimiters give the reply. */
  lemma SplitRoundTrip(s: string)
    requires Splittable(s)
    ensures Join(Split(s)) == s
  {
    var c2, c3, s1, s2 := Cuts(s);
    SplitAt(s, c2, c3, s1, s2);
    var id := Split(s);
    assert AfterDigRev(id) == s[s1 + 1..] by { Cut(s, s1 + 1, s2, '/'); }
    assert AfterSerial(id) == s[c3 + 1..] by { Cut(s, c3 + 1, s1, '/'); }
    assert AfterModel(id) == s[c2 + 1..] by { Cut(s, c2 + 1, c3, ','); }
    assert Join(id) == s by { Cut(s, 0, c2, ','); }
  }

  /** The parts the split produces have the shapes of a well-formed identity. */
  lemma SplitWellFormed(s: string)
    requires Splittable(s)
    ensures WellFormed(Split(s))
  {
    var c1, c2, c3, s1, s2 := Searches(s);
    var id := Split(s);
    assert id == Identity(s[..c2], s[c2 + 1..c3], s[c3 + 1..s1], s[s1 + 1..s2], s[s2 + 1..]);
    FindFromAt(id.model, ',', 0, c1);
    FindFromMissing(id.model, ',', c1 + 1);
  }

  /** In `m + "," + t` with one comma in `m`, the first two commas are the one
      in `m` and the one after it. */
  lemma FirstTwoCommas(m: string, t: string) returns (k: nat)
    requires OneComma(m)
    ensures FindFrom(m + ("," + t), ',', 0) == At(k)
    ensures FindFrom(m + ("," + t), ',', k + 1) == At(|m|)
  {
    k := FindFrom(m, ',', 0).index;
    FindFromSpec(m, ',', 0);
    FindFromSpec(m, ',', k + 1);
    var s := m + ("," + t);
    forall j | 0 <= j < |m| ensures s[j] == m[j] { }
    FindFromAt(s, ',', 0, k);
    FindFromAt(s, ',', k + 1, |m|);
  }

  /** What follows the part and the delimiter in `a + [c] + rest`. */
  lemma Rest(s: string, a: string, c: char, rest: string)
    requires s == a + ([c] + rest)
    ensures |s| == |a| + 1 + |rest| && s[|a| + 1..] == rest
  {
  }

  /** The part in front of the delimiter in `a + [c] + rest`. */
  lemma Front(s: string, a: string, c: char, rest: string)
    requires s == a + ([c] + rest)
    ensures s[..|a|] == a
  {
  }

  /** What follows each delimiter of the joined reply. */
  lemma SuffixesOfJoin(id: Identity)
    ensures var s, c2 := Join(id), |id.model|;
      var c3 := c2 + 1 + |id.serial|;
      var s1 := c3 + 1 + |id.digRev|;
      var s2 := s1 + 1 + |id.dispRev|;
      s2 < |s| && s[c2 + 1..] == AfterModel(id) && s[c3 + 1..] == AfterSerial(id) &&
      s[s1 + 1..] == AfterDigRev(id) && s[s2 + 1..] == id.brdRev
  {
    var s := Join(id);
    var c2 := |id.model|;
    var c3 := c2 + 1 + |id.serial|;
    var s1 := c3 + 1 + |id.digRev|;
    var s2 := s1 + 1 + |id.dispRev|;
    Rest(s, id.model, ',', AfterModel(id));
    Rest(AfterModel(id), id.serial, ',', AfterSerial(id));
    Rest(AfterSerial(id), id.digRev, '/', AfterDigRev(id));
    Rest(AfterDigRev(id), id.dispRev, '/', id.brdRev);
    SuffixOfSuffix(s, c2 + 1, |id.serial| + 1, c3 + 1);
    SuffixOfSuffix(s, c3 + 1, |id.digRev| + 1, s1 + 1);
    SuffixOfSuffix(s, s1 + 1, |id.dispRev| + 1, s2 + 1);
  }

  /** The parts sit in the joined reply between the delimiters. */
  lemma SlicesOfJoin(id: Identity)
    ensures var s, c2 := Join(id), |id.model|;
      var c3 := c2 + 1 + |id.serial|;
      var s1 := c3 + 1 + |id.digRev|;
      var s2 := s1 + 1 + |id.dispRev|;
      s2 < |s| && s[..c2] == id.model && s[c2 + 1..c3] == id.serial && s[c3 + 1..s1] == id.digRev &&
      s[s1 + 1..s2] == id.dispRev && s[s2 + 1..] == id.brdRev
  {
    var s := Join(id);
    var c2 := |id.model|;
    var c3 := c2 + 1 + |id.serial|;
    var s1 := c3 + 1 + |id.digRev|;
    var s2 := s1 + 1 + |id.dispRev|;
    SuffixesOfJoin(id);
    Front(s, id.model, ',', AfterModel(id));
    Front(AfterModel(id), id.serial, ',', AfterSerial(id));
    Front(AfterSerial(id), id.digRev, '/', AfterDigRev(id));
    Front(AfterDigRev(id), id.dispRev, '/', id.brdRev);
    PrefixOfSuffix(s, c2 + 1, |id.serial|, c3);
    PrefixOfSuffix(s, c3 + 1, |id.digRev|, s1);
    PrefixOfSuffix(s, s1 + 1, |id.dispRev|, s2);
  }

  /** After the model, parts free of the delimiter that ends them put the
      third comma and the two slashes right after them. */
  lemma LaterSearches(s: string, id: Identity)
    requires var c2 := |id.model|;
      var c3 := c2 + 1 + |id.serial|;
      var s1 := c3 + 1 + |id.digRev|;
      s1 + 1 + |id.dispRev| < |s| && s[c2 + 1..] == AfterModel(id) &&
      s[c3 + 1..] == AfterSerial(id) && s[s1 + 1..] == AfterDigRev(id)
    requires Lacks(id.serial, ',') && Lacks(id.digRev, '/') && Lacks(id.dispRev, '/')
    ensures var c2 := |id.model|;
      var c3 := c2 + 1 + |id.serial|;
      var s1 := c3 + 1 + |id.digRev|;
      FindFrom(s, ',', c2 + 1) == At(c3) && FindFrom(s, '/', c3 + 1) == At(s1) &&
      FindFrom(s, '/', s1 + 1) == At(s1 + 1 + |id.dispRev|)
  {
    var c2 := |id.model|;
    var c3 := c2 + 1 + |id.serial|;
    var s1 := c3 + 1 + |id.digRev|;
    NextDelimiter(s, c2 + 1, id.serial, ',', AfterSerial(id));
    NextDelimiter(s, c3 + 1, id.digRev, '/', AfterDigRev(id));
    NextDelimiter(s, s1 + 1, id.dispRev, '/', id.brdRev);
  }

  /** In the joined reply, the third comma and the two slashes directly
      follow the serial number and the first two revisions. */
  lemma SearchesOfJoin(id: Identity)
    requires WellFormed(id)
    ensures var s, c2 := Join(id), |id.model|;
      var c3 := c2 + 1 + |id.serial|;
      var s1 := c3 + 1 + |id.digRev|;
      FindFrom(s, ',', c2 + 1) == At(c3) && FindFrom(s, '/', c3 + 1) == At(s1) &&
      FindFrom(s, '/', s1 + 1) == At(s1 + 1 + |id.dispRev|)
  {
    SuffixesOfJoin(id);
    LaterSearches(Join(id), id);
  }

  /** The delimiters of a reply joined from well-formed parts sit between
      the parts. */
  lemma DelimitersOfJoin(id: Identity)
    requires WellFormed(id)
    ensures var c2 := |id.model|;
      var c3 := c2 + 1 + |id.serial|;
      var s1 := c3 + 1 + |id.digRev|;
      Delimiters(Join(id)) == Some((c2, c3, s1, s1 + 1 + |id.dispRev|))
  {
    var s := Join(id);
    var c2 := |id.model|;
    var c3 := c2 + 1 + |id.serial|;
    var s1 := c3 + 1 + |id.digRev|;
    var k := FirstTwoCommas(id.model, AfterModel(id));
    SearchesOfJoin(id);
    DelimitersAt(s, k, c2, c3, s1, s1 + 1 + |id.dispRev|);
  }

  /** The joined reply, cut between its parts, gives the parts back. */
  lemma PartsOfJoin(id: Identity)
    ensures var s, c2 := Join(id), |id.model|;
      var c3 := c2 + 1 + |id.serial|;
      var s1 := c3 + 1 + |id.digRev|;
      var s2 := s1 + 1 + |id.dispRev|;
      s2 < |s| && Identity(s[..c2], s[c2 + 1..c3], s[c3 + 1..s1], s[s1 + 1..s2], s[s2 + 1..]) == id
  {
    SlicesOfJoin(id);
  }

  /** A reply whose delimiters sit where the parts of `id` end splits into
      them, once the parts are what lies between the delimiters. */
  lemma SplitInto(s: string, id: Identity)
    requires var c2 := |id.model|;
      var c3 := c2 + 1 + |id.serial|;
      var s1 := c3 + 1 + |id.digRev|;
      var s2 := s1 + 1 + |id.dispRev|;
      s2 < |s| && Delimiters(s) == Some((c2, c3, s1, s2)) &&
      Identity(s[..c2], s[c2 + 1..c3], s[c3 + 1..s1], s[s1 + 1..s2], s[s2 + 1..]) == id
    ensures Split(s) == id
  {
    var c2 := |id.model|;
    var c3 := c2 + 1 + |id.serial|;
    var s1 := c3 + 1 + |id.digRev|;
    SplitAt(s, c2, c3, s1, s1 + 1 + |id.dispRev|);
  }

  /** Splitting the reply built from well-formed parts gives the parts back. */
  lemma SplitJoin(id: Identity)
    requires WellFormed(id)
    ensures Splittable(Join(id)) && Split(Join(id)) == id
  {
    DelimitersOfJoin(id);
    PartsOfJoin(id);
    SplitInto(Join(id), id);
  }
}
