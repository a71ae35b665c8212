/** The auth-cookie reader (`#utils.getCookieValue` in src/index.js): the
    decoded `document.cookie` string is split at ';', leading spaces are
    stripped from each piece, and the first piece that starts with `name=`
    gives the value; no match gives "". */
module Cookies {

  /** `s.split(sep)` for a one-character separator. */
  function Split(s: string, sep: char): (parts: seq<string>)
    ensures |parts| >= 1
  {
    if s == [] then [""]
    else if s[0] == sep then [""] + Split(s[1..], sep)
    else
      var rest := Split(s[1..], sep);
      [[s[0]] + rest[0]] + rest[1..]
  }

  /** The `while (c.charAt(0) == ' ')` loop as a function. */
  function TrimLeadingSpaces(c: string): (r: string)
    ensures r == [] || r[0] != ' '
    ensures |r| <= |c| && r == c[|c| - |r|..]
    ensures forall i :: 0 <= i < |c| - |r| ==> c[i] == ' '
  {
    if c != [] && c[0] == ' ' then TrimLeadingSpaces(c[1..]) else c
  }

  /** The value after `prefix` in the first piece that starts with it, else "". */
  function Scan(pieces: seq<string>, prefix: string): string
  {
    if pieces == [] then ""
    else
      var c := TrimLeadingSpaces(pieces[0]);
      if prefix <= c then c[|prefix|..] else Scan(pieces[1..], prefix)
  }

  /** What `getCookieValue(cname)` returns for the cookie string `cookie`. */
  function CookieValue(cookie: string, cname: string): string
  {
    Scan(Split(cookie, ';'), cname + "=")
  }

  /** `getCookieValue`: the index loop over the pieces with the inner loop that
      strips spaces. */
  method GetCookieValue(cookie: string, cname: string) returns (value: string)
    ensures value == CookieValue(cookie, cname)
  {
    var name := cname + "=";
    var ca := Split(cookie, ';');
    var i := 0;
    while i < |ca|
      invariant 0 <= i <= |ca|
      invariant Scan(ca[i..], name) == Scan(ca, name)
    {
      var c := ca[i];
      while c != [] && c[0] == ' '
        invariant TrimLeadingSpaces(c) == TrimLeadingSpaces(ca[i])
      {
        c := c[1..];
      }
      if name <= c {
        return c[|name|..];
      }
      assert ca[i..][1..] == ca[i + 1..];
      i := i + 1;
    }
    return "";
  }

  // ---------------------------------------------------------------------------
  // The browser serializes its cookie jar as "n1=v1; n2=v2; ...". For names
  // that contain neither ';' nor '=' and do not start with a space, and values
  // without ';', the scan above finds the value of the first cookie so named.

  datatype Cookie = Cookie(name: string, value: string)

  function Entry(c: Cookie): string
  {
    c.name + "=" + c.value
  }

  /** `document.cookie` for a jar listed in order. */
  function Serialize(jar: seq<Cookie>): string
  {
    if jar == [] then ""
    else if |jar| == 1 then Entry(jar[0])
    else Entry(jar[0]) + "; " + Serialize(jar[1..])
  }

  /** The value of the first cookie named `name`, or "". */
  function Lookup(jar: seq<Cookie>, name: string): string
  {
    if jar == [] then ""
    else if jar[0].name == name then jar[0].value
    else Lookup(jar[1..], name)
  }

  /** The jar as a dictionary from name to value, the first cookie of a name
      taking precedence over later ones. */
  function JarMap(jar: seq<Cookie>): map<string, string>
  {
    if jar == [] then map[] else JarMap(jar[1..])[jar[0].name := jar[0].value]
  }

  /** The first-match lookup in the listed jar is a lookup in its dictionary. */
  lemma {:induction false} LookupIsMapLookup(jar: seq<Cookie>, name: string)
    ensures name in JarMap(jar) <==> exists i :: 0 <= i < |jar| && jar[i].name == name
    ensures Lookup(jar, name) == if name in JarMap(jar) then JarMap(jar)[name] else ""
  {
    if jar != [] {
      LookupIsMapLookup(jar[1..], name);
      if name != jar[0].name && name in JarMap(jar) {
        var i :| 0 <= i < |jar[1..]| && jar[1..][i].name == name;
        assert jar[i + 1].name == name;
      }
      if exists i :: 0 <= i < |jar| && jar[i].name == name {
        var i :| 0 <= i < |jar| && jar[i].name == name;
        if i > 0 {
          assert jar[1..][i - 1].name == name;
        }
      }
    }
  }

  predicate WellFormed(c: Cookie)
  {
    ';' !in c.name && '=' !in c.name && (c.name == [] || c.name[0] != ' ') && ';' !in c.value
  }

  lemma {:induction false} SplitWithoutSeparator(s: string, sep: char)
    requires sep !in s
    ensures Split(s, sep) == [s]
  {
    if s != [] {
      SplitWithoutSeparator(s[1..], sep);
      assert [s[0]] + s[1..] == s;
    }
  }

  lemma {:induction false} SplitAtSeparator(p: string, q: string, sep: char)
    requires sep !in p
    ensures Split(p + [sep] + q, sep) == [p] + Split(q, sep)
  {
    if p == [] {
      assert p + [sep] + q == [sep] + q;
      assert ([sep] + q)[1..] == q;
    } else {
      assert (p + [sep] + q)[1..] == p[1..] + [sep] + q;
      SplitAtSeparator(p[1..], q, sep);
      assert [p[0]] + p[1..] == p;
    }
  }

  lemma TrimEntry(lead: string, e: string)
    requires lead == "" || lead == " "
    requires e != [] && e[0] != ' '
    ensures TrimLeadingSpaces(lead + e) == e
  {
    if lead == " " {
      assert (lead + e)[1..] == e;
    } else {
      assert lead + e == e;
    }
  }

  /** The serialized form of a well-formed cookie is a piece of its own. */
  lemma EntryShape(c: Cookie)
    requires WellFormed(c)
    ensures Entry(c) != [] && Entry(c)[0] != ' ' && ';' !in Entry(c)
  {
    if c.name == [] {
      assert Entry(c)[0] == '=';
    } else {
      assert Entry(c)[0] == c.name[0];
    }
  }

  /** The text before the first '=' (the cookie name of an entry). */
  function BeforeEquals(s: string): string
  {
    if s == [] || s[0] == '=' then [] else [s[0]] + BeforeEquals(s[1..])
  }

  lemma {:induction false} BeforeEqualsOf(a: string, b: string)
    requires '=' !in a
    ensures BeforeEquals(a + "=" + b) == a
  {
    if a == [] {
      assert (a + "=" + b)[0] == '=';
    } else {
      assert (a + "=" + b)[1..] == a[1..] + "=" + b;
      BeforeEqualsOf(a[1..], b);
      assert [a[0]] + a[1..] == a;
    }
  }

  /** `n=` starts the entry of `c` exactly when `c` is named `n`. */
  lemma PrefixMatchesName(n: string, c: Cookie)
    requires '=' !in n && WellFormed(c)
    ensures (n + "=" <= Entry(c)) <==> n == c.name
  {
    var e := Entry(c);
    if n + "=" <= e {
      assert e == n + "=" + e[|n| + 1..];
      BeforeEqualsOf(n, e[|n| + 1..]);
      BeforeEqualsOf(c.name, c.value);
    }
    if n == c.name {
      assert e == (n + "=") + c.value;
    }
  }

  /** What the scan does with the piece `lead + Entry(c)` at the head. */
  lemma ScanEntryHead(c: Cookie, lead: string, n: string, rest: seq<string>)
    requires lead == "" || lead == " "
    requires WellFormed(c) && '=' !in n
    ensures ';' !in lead + Entry(c)
    ensures Scan([lead + Entry(c)] + rest, n + "=") == if n == c.name then c.value else Scan(rest, n + "=")
  {
    var e := Entry(c);
    EntryShape(c);
    TrimEntry(lead, e);
    PrefixMatchesName(n, c);
    assert ([lead + e] + rest)[1..] == rest;
    if n == c.name {
      assert e == (n + "=") + c.value;
    }
  }

  /** The serialized jar splits into the first entry and the rest. */
  lemma SplitSerialized(jar: seq<Cookie>, lead: string)
    requires lead == "" || lead == " "
    requires |jar| >= 2 && WellFormed(jar[0])
    ensures Split(lead + Serialize(jar), ';') == [lead + Entry(jar[0])] + Split(" " + Serialize(jar[1..]), ';')
  {
    var x, rest := lead + Entry(jar[0]), " " + Serialize(jar[1..]);
    EntryShape(jar[0]);
    assert ';' !in x;
    assert lead + Serialize(jar) == x + [';'] + rest;
    SplitAtSeparator(x, rest, ';');
  }

  /** The pieces `split(';')` makes of a serialized jar: every entry after
      the first keeps the space that follows the ';'. */
  function SerializedPieces(jar: seq<Cookie>, lead: string): seq<string>
  {
    if jar == [] then [lead]
    else if |jar| == 1 then [lead + Entry(jar[0])]
    else [lead + Entry(jar[0])] + SerializedPieces(jar[1..], " ")
  }

  lemma {:induction false} SplitSerializedJar(jar: seq<Cookie>, lead: string)
    requires lead == "" || lead == " "
    requires forall i :: 0 <= i < |jar| ==> WellFormed(jar[i])
    ensures Split(lead + Serialize(jar), ';') == SerializedPieces(jar, lead)
  {
    if jar == [] {
      assert lead + Serialize(jar) == lead;
      SplitWithoutSeparator(lead, ';');
    } else if |jar| == 1 {
      EntryShape(jar[0]);
      SplitWithoutSeparator(lead + Entry(jar[0]), ';');
    } else {
      SplitSerialized(jar, lead);
      SplitSerializedJar(jar[1..], " ");
    }
  }

  lemma {:induction false} ScanPieces(jar: seq<Cookie>, lead: string, n: string)
    requires lead == "" || lead == " "
    requires forall i :: 0 <= i < |jar| ==> WellFormed(jar[i])
    requires '=' !in n
    ensures Scan(SerializedPieces(jar, lead), n + "=") == Lookup(jar, n)
  {
    if jar == [] {
      assert TrimLeadingSpaces(lead) == [];
    } else if |jar| == 1 {
      ScanEntryHead(jar[0], lead, n, []);
      assert [lead + Entry(jar[0])] + [] == [lead + Entry(jar[0])];
    } else {
      var tail := jar[1..];
      assert forall i :: 0 <= i < |tail| ==> WellFormed(tail[i]) by {
        forall i | 0 <= i < |tail| ensures WellFormed(tail[i]) { assert tail[i] == jar[i + 1]; }
      }
      ScanEntryHead(jar[0], lead, n, SerializedPieces(tail, " "));
      ScanPieces(tail, " ", n);
    }
  }

  /** Round trip: reading a cookie back from the serialized jar yields the
      value of the first cookie with that name, and "" when there is none. */
  lemma CookieRoundTrip(jar: seq<Cookie>, n: string)
    requires forall i :: 0 <= i < |jar| ==> WellFormed(jar[i])
    requires '=' !in n
    ensures CookieValue(Serialize(jar), n) == Lookup(jar, n)
  {
    SplitSerializedJar(jar, "");
    ScanPieces(jar, "", n);
    assert "" + Serialize(jar) == Serialize(jar);
  }
}
