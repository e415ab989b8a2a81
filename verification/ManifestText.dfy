/** The manifest of a snapshot as it is written: sorted keys, no padding, everything outside of ASCII
    escaped. Its length is the one that the limit on manifests is about. */
module ManifestText {
  import opened Protocol
  import opened Trees
  import opened Inventory
  import opened Snapshot
  import L = Locations

  function HexDigit(n: nat): char
    requires n < 16
  {
    "0123456789abcdef"[n]
  }

  function FourDigits(n: nat): (s: string)
    requires n < 0x1_0000
    ensures |s| == 4
  {
    [HexDigit(n / 4096), HexDigit(n / 256 % 16), HexDigit(n / 16 % 16), HexDigit(n % 16)]
  }

  function Unit(n: nat): (s: string)
    requires n < 0x1_0000
    ensures |s| == 6
  {
    "\\u" + FourDigits(n)
  }

  /** A character in a JSON string; one beyond the basic plane becomes two units. */
  function CharText(c: char): string {
    var n := c as int;
    if c == '"' then "\\\""
    else if c == '\\' then "\\\\"
    else if ' ' <= c <= '~' then [c]
    else if n < 0x1_0000 then Unit(n)
    else Unit(0xD800 + (n - 0x1_0000) / 0x400) + Unit(0xDC00 + (n - 0x1_0000) % 0x400)
  }

  function Escaped(s: string): string {
    if s == [] then "" else CharText(s[0]) + Escaped(s[1..])
  }

  /** Eight digits. */
  function NumberText(n: nat): (s: string)
    requires n < 100_000_000
    ensures |s| == 8
  {
    assert Pow10(8) == 100_000_000 by { assert Pow10(4) == 10_000; }
    DecimalLength(n, 8);
    seq(8 - |Decimal(n)|, i => '0') + Decimal(n)
  }

  /** The limit on entries keeps every number within eight digits. */
  ghost predicate FewFiles(m: Manifest) {
    forall q :: q in m && m[q].FileItem? ==> m[q].number < 100_000_000
  }

  /** The hexadecimal text of every digest. */
  ghost predicate IsHexText(hex: Hash -> string) {
    forall h :: |hex(h)| == 64
  }

  function ItemText(i: Item, hex: Hash -> string): string
    requires i.FileItem? ==> i.number < 100_000_000
  {
    "{\"gid\":" + Number(i.meta.gid)
    + ",\"kind\":" + (if i.DirItem? then "\"directory\"" else "\"file\"")
    + ",\"mode\":" + Number(i.meta.mode as int)
    + ",\"mtime_ns\":" + Number(i.meta.mtime)
    + (if i.DirItem? then ""
       else ",\"object\":\"" + NumberText(i.number) + "\",\"sha256\":\"" + hex(i.sha) + "\",\"size\":" + Number(i.size))
    + ",\"uid\":" + Number(i.meta.uid) + "}"
  }

  function LineText(p: Path, i: Item, hex: Hash -> string): string
    requires i.FileItem? ==> i.number < 100_000_000
  {
    "\"" + Escaped(L.Join(p)) + "\":" + ItemText(i, hex)
  }

  /** The entries in the given order, with commas between them. */
  ghost function LinesText(order: seq<Path>, m: Manifest, hex: Hash -> string): string
    requires FewFiles(m) && forall i :: 0 <= i < |order| ==> order[i] in m
  {
    if order == [] then ""
    else LineText(order[0], m[order[0]], hex) + (if |order| > 1 then "," else "") + LinesText(order[1..], m, hex)
  }

  /** What identifies the installation, its image and the request. */
  datatype Names = Names(container: string, image: string, installation: string, request: string)

  ghost predicate NamesOk(n: Names) {
    |n.container| == 64 && |n.image| == 64 && |n.installation| == 36 && |n.request| == 36
  }

  ghost function Text(order: seq<Path>, m: Manifest, total: nat, policy: Enrollment, names: Names, hex: Hash -> string)
    : string
    requires FewFiles(m) && forall i :: 0 <= i < |order| ==> order[i] in m
  {
    "{\"container_id\":\"" + names.container + "\",\"entries\":{" + LinesText(order, m, hex)
    + "},\"image_id\":\"sha256:" + names.image + "\",\"installation_id\":\"" + names.installation
    + "\",\"request_id\":\"" + names.request + "\",\"schema\":1,\"total_bytes\":" + Number(total)
    + ",\"version\":\"" + VersionText(policy.version) + "\"}\n"
  }

  // ----------------------------------------------------------------------------------------

  lemma CharLengthMeans(c: char)
    ensures |CharText(c)| == CharLength(c)
  {
  }

  lemma {:induction false} EscapedPlus(s: string, t: string)
    ensures Escaped(s + t) == Escaped(s) + Escaped(t)
  {
    if s == [] {
      assert s + t == t;
    } else {
      assert (s + t)[0] == s[0] && (s + t)[1..] == s[1..] + t;
      EscapedPlus(s[1..], t);
    }
  }

  lemma {:induction false} EscapedLengthMeans(s: string)
    ensures |Escaped(s)| == EscapedLength(s)
  {
    hide CharText, CharLength;
    if s != [] {
      CharLengthMeans(s[0]);
      EscapedLengthMeans(s[1..]);
    }
  }

  lemma SlashLength()
    ensures |Escaped("/")| == 1
  {
    assert "/"[1..] == "";
    assert CharText('/') == "/";
  }

  lemma {:induction false} KeyLengthMeans(p: Path)
    ensures |Escaped(L.Join(p))| == KeyLength(p)
  {
    hide Escaped, EscapedLength;
    if p == [] {
      EscapedLengthMeans("");
      NoLength();
    } else {
      EscapedLengthMeans(p[0]);
      EscapedPlus(p[0], L.Spell(p[1..]));
      if |p| > 1 {
        KeyLengthMeans(p[1..]);
        assert L.Spell(p[1..]) == "/" + L.Join(p[1..]);
        EscapedPlus("/", L.Join(p[1..]));
        SlashLength();
      } else {
        assert L.Join(p) == p[0];
      }
    }
  }

  lemma NoLength()
    ensures EscapedLength("") == 0
  {
  }

  lemma LineLengthMeans(p: Path, i: Item, hex: Hash -> string)
    requires IsHexText(hex) && (i.FileItem? ==> i.number < 100_000_000)
    ensures |LineText(p, i, hex)| + 1 == LineLength(p, i)
  {
    hide Escaped, KeyLength, NumberText, Number;
    KeyLengthMeans(p);
  }

  lemma {:induction false} LinesLength(order: seq<Path>, part: Manifest, m: Manifest, hex: Hash -> string)
    requires FewFiles(m) && IsHexText(hex) && forall q :: q in part ==> q in m && m[q] == part[q]
    requires forall i, k :: 0 <= i < k < |order| ==> order[i] != order[k]
    requires forall q :: q in order <==> q in part
    ensures forall i :: 0 <= i < |order| ==> order[i] in m
    ensures |LinesText(order, m, hex)| + (if order == [] then 0 else 1) == Lengths(part)
    decreases |order|
  {
    hide LineText, LineLength, FewFiles, IsHexText;
    forall i | 0 <= i < |order| ensures order[i] in m { assert order[i] in part; }
    if order == [] {
      NothingListed(order, part);
      LengthsNone();
    } else {
      var p, rest := order[0], order[1..];
      FileNumber(m, p);
      LengthsRemove(part, p);
      LineLengthMeans(p, m[p], hex);
      forall q ensures q in rest <==> q in part - {p} {
        if q in rest {
          var i :| 0 <= i < |rest| && rest[i] == q;
          assert order[i + 1] == q != order[0];
        }
        if q in part - {p} {
          var i :| 0 <= i < |order| && order[i] == q;
          assert rest[i - 1] == q;
        }
      }
      LinesLength(rest, part - {p}, m, hex);
    }
  }

  lemma NothingListed(order: seq<Path>, part: Manifest)
    requires order == [] && forall q :: q in order <==> q in part
    ensures part == map[]
  {
  }

  lemma FileNumber(m: Manifest, p: Path)
    requires FewFiles(m) && p in m
    ensures m[p].FileItem? ==> m[p].number < 100_000_000
  {
  }

  /** Whatever the order of the entries, the text has the length that is compared with the limit. */
  lemma LengthOfText(order: seq<Path>, m: Manifest, total: nat, policy: Enrollment, names: Names, hex: Hash -> string)
    requires FewFiles(m) && IsHexText(hex) && NamesOk(names) && m != map[]
    requires forall i, k :: 0 <= i < k < |order| ==> order[i] != order[k]
    requires forall q :: q in order <==> q in m
    ensures forall i :: 0 <= i < |order| ==> order[i] in m
    ensures |Text(order, m, total, policy, names, hex)| == ManifestLength(m, total, policy)
  {
    hide Lengths, LinesText, FewFiles, IsHexText, Number, VersionText;
    LinesLength(order, m, m, hex);
    var q :| q in m;
    assert q in order;
  }
}
