// Identity and destination mosaics: what is fed to HMAC, and when two
// transactions share a mosaic. HMAC is any function that is injective in its
// message for a fixed key.
module Mosaic {
  import opened Options

  // unicode.IsSpace and unicode.ToUpper, as far as the proofs look into them.
  datatype Unicode = Unicode(isSpace: char -> bool, toUpper: char -> char)
  {
    ghost predicate WellBehaved() {
      && isSpace(' ') && !isSpace('|') && toUpper('|') == '|' && toUpper(' ') == ' '
      && (forall c: char :: toUpper(toUpper(c)) == toUpper(c))
      && (forall c: char :: isSpace(toUpper(c)) == isSpace(c))
      && (forall c: char :: toUpper(c) == '-' || toUpper(c) == '.' ==> toUpper(c) == c)
    }
  }

  // -------------------------------------------------------------- normalisation

  predicate Dropped(u: Unicode, c: char) {
    u.isSpace(c) || c == '-' || c == '.'
  }

  function NormalId(u: Unicode, s: string): string {
    if s == "" then ""
    else
      var n := |s| - 1;
      NormalId(u, s[..n]) + if Dropped(u, s[n]) then "" else [u.toUpper(s[n])]
  }

  // idx lists, in order, the characters of s that are neither white space nor a
  // dash nor a dot.
  ghost predicate Keeps(u: Unicode, s: string, idx: seq<nat>) {
    && |idx| <= |s| && (forall j | 0 <= j < |idx| :: idx[j] < |s|)
    && (forall i, j | 0 <= i < j < |idx| :: idx[i] < idx[j])
    && (forall i | 0 <= i < |s| :: i in idx <==> !u.isSpace(s[i]) && s[i] != '-' && s[i] != '.')
  }

  // NormalizeID, with its builder loop: each character of the result is the upper
  // case of one that is kept, and each one kept has its place.
  method NormalizeID(u: Unicode, s: string) returns (b: string, ghost idx: seq<nat>)
    ensures Keeps(u, s, idx) && |b| == |idx|
    ensures forall j | 0 <= j < |b| :: b[j] == u.toUpper(s[idx[j]])
    ensures b == NormalId(u, s)
  {
    b, idx := "", [];
    for i := 0 to |s|
      invariant Keeps(u, s[..i], idx)
      invariant b == NormalId(u, s[..i])
    {
      assert s[..i + 1][..i] == s[..i];
      KeepsNext(u, s, i, idx);
      if !Dropped(u, s[i]) {
        b := b + [u.toUpper(s[i])];
        idx := idx + [i];
      }
    }
    assert s[..|s|] == s;
    NormalIdKeeps(u, s, idx);
  }

  lemma KeepsNext(u: Unicode, s: string, i: nat, idx: seq<nat>)
    requires i < |s| && Keeps(u, s[..i], idx)
    ensures Keeps(u, s[..i + 1], if Dropped(u, s[i]) then idx else idx + [i])
  {
    assert i !in idx;
  }

  // The normal form is told by the characters kept, ...
  lemma {:induction false} NormalIdKeeps(u: Unicode, s: string, idx: seq<nat>)
    requires Keeps(u, s, idx)
    ensures |NormalId(u, s)| == |idx|
    ensures forall j | 0 <= j < |idx| :: NormalId(u, s)[j] == u.toUpper(s[idx[j]])
  {
    if s != "" {
      var n := |s| - 1;
      if Dropped(u, s[n]) {
        LastDropped(u, s, idx);
        NormalIdKeeps(u, s[..n], idx);
      } else {
        LastKept(u, s, idx);
        NormalIdKeeps(u, s[..n], idx[..|idx| - 1]);
      }
    }
  }

  lemma LastDropped(u: Unicode, s: string, idx: seq<nat>)
    requires Keeps(u, s, idx) && s != "" && Dropped(u, s[|s| - 1])
    ensures Keeps(u, s[..|s| - 1], idx)
  {
    var n := |s| - 1;
    assert n !in idx;
    forall j | 0 <= j < |idx| ensures idx[j] < n {
      assert idx[j] in idx;
    }
    Increasing(idx, n);
  }

  lemma {:induction false} Increasing(idx: seq<nat>, n: nat)
    requires forall j | 0 <= j < |idx| :: idx[j] < n
    requires forall i, j | 0 <= i < j < |idx| :: idx[i] < idx[j]
    ensures |idx| <= n
  {
    if idx != [] {
      var last := |idx| - 1;
      Increasing(idx[..last], idx[last]);
    }
  }

  lemma LastKept(u: Unicode, s: string, idx: seq<nat>)
    requires Keeps(u, s, idx) && s != "" && !Dropped(u, s[|s| - 1])
    ensures idx != [] && idx[|idx| - 1] == |s| - 1 && Keeps(u, s[..|s| - 1], idx[..|idx| - 1])
  {
    var n, last := |s| - 1, |idx| - 1;
    assert n in idx;
    var j :| 0 <= j < |idx| && idx[j] == n;
    var top := idx[last];
    if j < last {
      assert false;  // top would lie beyond s
    }
    forall i | 0 <= i < n ensures i in idx[..last] <==> i in idx {
      assert idx == idx[..last] + [idx[last]];
    }
  }

  // ... so two IDs normalise alike exactly when what is kept of them agrees up to
  // upper case.
  lemma NormaliseAlike(u: Unicode, s: string, idx: seq<nat>, t: string, jdx: seq<nat>)
    requires Keeps(u, s, idx) && Keeps(u, t, jdx)
    ensures NormalId(u, s) == NormalId(u, t) <==>
            |idx| == |jdx| && forall m | 0 <= m < |idx| :: u.toUpper(s[idx[m]]) == u.toUpper(t[jdx[m]])
  {
    NormalIdKeeps(u, s, idx);
    NormalIdKeeps(u, t, jdx);
    SameString(NormalId(u, s), NormalId(u, t));
  }

  lemma SameString(a: string, b: string)
    ensures a == b <==> |a| == |b| && forall m | 0 <= m < |a| :: a[m] == b[m]
  {
  }

  function Upper(u: Unicode, s: string): (r: string)
    ensures |r| == |s|
    ensures forall i | 0 <= i < |s| :: r[i] == u.toUpper(s[i])
  {
    if s == "" then "" else [u.toUpper(s[0])] + Upper(u, s[1..])
  }

  // The longest prefix without white space.
  function Word(u: Unicode, s: string): (w: string)
    ensures w <= s
  {
    if s == "" || u.isSpace(s[0]) then "" else [s[0]] + Word(u, s[1..])
  }

  // strings.Fields
  function Fields(u: Unicode, s: string): seq<string>
    decreases |s|
  {
    if s == "" then []
    else if u.isSpace(s[0]) then Fields(u, s[1..])
    else [Word(u, s)] + Fields(u, s[|Word(u, s)|..])
  }

  // A string is its fields with white space around them: some between any two.
  ghost predicate Woven(u: Unicode, s: string, ws: seq<string>, gaps: seq<string>) {
    && |gaps| == |ws| + 1
    && (forall i | 0 <= i < |ws| :: ws[i] != "" && Solid(u, ws[i]))
    && (forall i | 0 <= i < |gaps| :: Blank(u, gaps[i]) && (0 < i < |ws| ==> gaps[i] != ""))
    && s == Weave(ws, gaps)
  }

  function Weave(ws: seq<string>, gaps: seq<string>): string
    requires |gaps| == |ws| + 1
  {
    if ws == [] then gaps[0] else gaps[0] + (ws[0] + Weave(ws[1..], gaps[1..]))
  }

  predicate Blank(u: Unicode, s: string) {
    forall i | 0 <= i < |s| :: u.isSpace(s[i])
  }

  // Which is what the fields of a string are.
  lemma {:induction false} FieldsWoven(u: Unicode, s: string) returns (gaps: seq<string>)
    ensures Woven(u, s, Fields(u, s), gaps)
    ensures s != "" && !u.isSpace(s[0]) ==> gaps[0] == ""
    decreases |s|
  {
    if s == "" {
      gaps := [""];
    } else if u.isSpace(s[0]) {
      var rest := FieldsWoven(u, s[1..]);
      gaps := [[s[0]] + rest[0]] + rest[1..];
      WidenFirst(u, s, Fields(u, s), rest);
    } else {
      var w := Word(u, s);
      WordIsSolid(u, s);
      WordStops(u, s);
      var tail := s[|w|..];
      var rest := FieldsWoven(u, tail);
      gaps := [""] + rest;
      AddWord(u, s, w, tail, Fields(u, tail), rest);
    }
  }

  lemma {:induction false} WordStops(u: Unicode, s: string)
    ensures |Word(u, s)| < |s| ==> u.isSpace(s[|Word(u, s)|])
  {
    if s != "" && !u.isSpace(s[0]) {
      WordStops(u, s[1..]);
    }
  }

  lemma WidenFirst(u: Unicode, s: string, ws: seq<string>, rest: seq<string>)
    requires s != "" && u.isSpace(s[0]) && Woven(u, s[1..], ws, rest)
    ensures Woven(u, s, ws, [[s[0]] + rest[0]] + rest[1..])
  {
    assert s == [s[0]] + s[1..];
    WiderFirst(ws, [s[0]], rest, [[s[0]] + rest[0]] + rest[1..]);
  }

  lemma AddWord(u: Unicode, s: string, w: string, tail: string, ws: seq<string>, rest: seq<string>)
    requires w != "" && Solid(u, w) && s == w + tail && Woven(u, tail, ws, rest)
    requires tail != "" ==> u.isSpace(tail[0])
    ensures Woven(u, s, [w] + ws, [""] + rest)
  {
    var all, gaps := [w] + ws, [""] + rest;
    assert all[1..] == ws && gaps[1..] == rest;
    if ws != [] {
      assert tail == rest[0] + (ws[0] + Weave(ws[1..], rest[1..]));
      assert tail[|rest[0]|] == ws[0][0] && !u.isSpace(ws[0][0]);
    }
    forall i | 0 <= i < |gaps| ensures Blank(u, gaps[i]) && (0 < i < |all| ==> gaps[i] != "") {
      if i > 0 {
        assert gaps[i] == rest[i - 1];
      }
    }
    forall i | 0 <= i < |all| ensures all[i] != "" && Solid(u, all[i]) {
      if i > 0 {
        assert all[i] == ws[i - 1];
      }
    }
  }

  // strings.Join(words, " ")
  function Join(words: seq<string>): string {
    if words == [] then "" else if |words| == 1 then words[0] else words[0] + " " + Join(words[1..])
  }

  function NormalName(u: Unicode, s: string): string {
    Join(Fields(u, Upper(u, s)))
  }

  predicate Solid(u: Unicode, s: string) {
    forall i | 0 <= i < |s| :: !u.isSpace(s[i])
  }

  predicate Capital(u: Unicode, s: string) {
    forall i | 0 <= i < |s| :: u.toUpper(s[i]) == s[i]
  }

  predicate Words(u: Unicode, ws: seq<string>) {
    forall w | w in ws :: w != "" && Solid(u, w) && Capital(u, w)
  }

  lemma {:induction false} NormalIdShape(u: Unicode, s: string)
    requires u.WellBehaved()
    ensures Solid(u, NormalId(u, s)) && Capital(u, NormalId(u, s))
    ensures '-' !in NormalId(u, s) && '.' !in NormalId(u, s)
  {
    if s != "" {
      NormalIdShape(u, s[..|s| - 1]);
    }
  }

  lemma {:induction false} FieldsAreWords(u: Unicode, s: string)
    requires Capital(u, s)
    ensures Words(u, Fields(u, s))
    decreases |s|
  {
    if s == "" {
    } else if u.isSpace(s[0]) {
      FieldsAreWords(u, s[1..]);
    } else {
      var w := Word(u, s);
      WordIsSolid(u, s);
      FieldsAreWords(u, s[|w|..]);
    }
  }

  lemma {:induction false} WordIsSolid(u: Unicode, s: string)
    ensures Solid(u, Word(u, s))
  {
    if s != "" && !u.isSpace(s[0]) {
      WordIsSolid(u, s[1..]);
    }
  }

  lemma {:induction false} WordThenSpace(u: Unicode, w: string, rest: string)
    requires Solid(u, w) && (rest == "" || u.isSpace(rest[0]))
    ensures Word(u, w + rest) == w
  {
    if w != "" {
      assert (w + rest)[1..] == w[1..] + rest;
      WordThenSpace(u, w[1..], rest);
    } else {
      assert w + rest == rest;
    }
  }

  lemma OneField(u: Unicode, w: string)
    requires w != "" && Solid(u, w)
    ensures Fields(u, w) == [w]
  {
    WordThenSpace(u, w, "");
    assert w + "" == w && w[|w|..] == "";
  }

  lemma FirstField(u: Unicode, w: string, tail: string)
    requires w != "" && Solid(u, w) && u.isSpace(' ')
    ensures Fields(u, w + (" " + tail)) == [w] + Fields(u, tail)
  {
    WordThenSpace(u, w, " " + tail);
    assert (w + (" " + tail))[|w|..] == " " + tail && (" " + tail)[1..] == tail;
  }

  lemma WordsTail(u: Unicode, ws: seq<string>)
    requires Words(u, ws) && ws != []
    ensures Words(u, ws[1..]) && ws[0] in ws
  {
    assert forall v | v in ws[1..] :: v in ws;
  }

  lemma {:induction false} FieldsJoin(u: Unicode, ws: seq<string>)
    requires u.isSpace(' ') && Words(u, ws)
    ensures Fields(u, Join(ws)) == ws
  {
    if ws != [] {
      WordsTail(u, ws);
      FieldsJoin(u, ws[1..]);
      if |ws| == 1 {
        OneField(u, ws[0]);
      } else {
        JoinSplits(ws);
        FirstField(u, ws[0], Join(ws[1..]));
      }
    }
  }

  lemma JoinSplits(ws: seq<string>)
    requires |ws| > 1
    ensures Join(ws) == ws[0] + (" " + Join(ws[1..]))
  {
  }

  // The gaps of a joined string: one space between any two words, none around them.
  function SingleGaps(n: nat): (gaps: seq<string>)
    ensures |gaps| == n + 1
    ensures forall i | 0 <= i <= n :: gaps[i] == if 0 < i < n then " " else ""
  {
    if n == 0 then [""] else [""] + seq(n - 1, _ => " ") + [""]
  }

  lemma {:induction false} JoinWoven(u: Unicode, ws: seq<string>)
    requires u.isSpace(' ') && forall i | 0 <= i < |ws| :: ws[i] != "" && Solid(u, ws[i])
    ensures Woven(u, Join(ws), ws, SingleGaps(|ws|))
  {
    if |ws| == 1 {
      assert SingleGaps(1)[1..] == [""] && Weave(ws[1..], [""]) == "";
    } else if |ws| > 1 {
      JoinWoven(u, ws[1..]);
      SpaceBefore(ws);
    }
  }

  lemma WiderFirst(ws: seq<string>, x: string, gaps: seq<string>, wide: seq<string>)
    requires |gaps| == |wide| == |ws| + 1 && wide[0] == x + gaps[0] && wide[1..] == gaps[1..]
    ensures Weave(ws, wide) == x + Weave(ws, gaps)
  {
    if ws != [] {
      Regroup(x, gaps[0], ws[0] + Weave(ws[1..], gaps[1..]));
    }
  }

  lemma Regroup(x: string, y: string, z: string)
    ensures (x + y) + z == x + (y + z)
  {
  }

  lemma SpaceBefore(ws: seq<string>)
    requires |ws| > 1
    ensures Weave(ws, SingleGaps(|ws|)) == ws[0] + " " + Weave(ws[1..], SingleGaps(|ws| - 1))
  {
    var gaps, inner := SingleGaps(|ws|), SingleGaps(|ws| - 1);
    assert gaps[1..][1..] == inner[1..];
    WiderFirst(ws[1..], " ", inner, gaps[1..]);
    FirstWord(ws, gaps, Weave(ws[1..], inner));
  }

  lemma FirstWord(ws: seq<string>, gaps: seq<string>, rest: string)
    requires |gaps| == |ws| + 1 && ws != [] && gaps[0] == "" && Weave(ws[1..], gaps[1..]) == " " + rest
    ensures Weave(ws, gaps) == ws[0] + " " + rest
  {
    Regroup(ws[0], " ", rest);
  }

  // NormalizeName, from the outside: the result is the words of the upper-cased
  // name, one space between any two of them, whatever white space there was.
  lemma NameWoven(u: Unicode, s: string) returns (ws: seq<string>, gaps: seq<string>)
    requires u.isSpace(' ')
    ensures Woven(u, Upper(u, s), ws, gaps)
    ensures Woven(u, NormalName(u, s), ws, SingleGaps(|ws|))
  {
    ws := Fields(u, Upper(u, s));
    gaps := FieldsWoven(u, Upper(u, s));
    JoinWoven(u, ws);
  }

  lemma {:induction false} JoinCapital(u: Unicode, ws: seq<string>)
    requires u.WellBehaved() && Words(u, ws)
    ensures Capital(u, Join(ws))
  {
    if ws != [] {
      assert ws[0] in ws;
      WordsTail(u, ws);
      JoinCapital(u, ws[1..]);
    }
  }

  lemma UpperFixes(u: Unicode, s: string)
    requires Capital(u, s)
    ensures Upper(u, s) == s
  {
  }

  lemma NameWords(u: Unicode, ws: seq<string>)
    requires u.WellBehaved() && Words(u, ws)
    ensures NormalName(u, Join(ws)) == Join(ws)
  {
    JoinCapital(u, ws);
    UpperFixes(u, Join(ws));
    FieldsJoin(u, ws);
  }

  lemma {:induction false} IdFixes(u: Unicode, s: string)
    requires Solid(u, s) && Capital(u, s) && '-' !in s && '.' !in s
    ensures NormalId(u, s) == s
  {
    if s != "" {
      IdFixes(u, s[..|s| - 1]);
    }
  }

  // -------------------------------------------------------------------- mosaics

  // HMACHash(key, message).
  type Mac = (string, string) -> string

  ghost predicate InjectiveFor(mac: Mac, key: string) {
    forall m, n :: mac(key, m) == mac(key, n) ==> m == n
  }

  function KeyMaterial(salt: string, pepper: string): string {
    if pepper == "" then salt else salt + "|" + pepper
  }

  // Without a pepper the salt is the key; with the same salt different peppers give
  // different keys; and where salts contain no '|' no two pairs share a key.
  lemma KeyMaterialSeparates(salt: string, pepper: string, salt': string, pepper': string)
    ensures KeyMaterial(salt, "") == salt
    ensures KeyMaterial(salt, pepper) == KeyMaterial(salt, pepper') <==> pepper == pepper'
    ensures '|' !in salt && '|' !in salt' ==>
              (KeyMaterial(salt, pepper) == KeyMaterial(salt', pepper') <==> salt == salt' && pepper == pepper')
  {
    SaltedApart(salt, pepper, pepper');
    if '|' !in salt && '|' !in salt' && KeyMaterial(salt, pepper) == KeyMaterial(salt', pepper') {
      SaltOf(salt, pepper);
      SaltOf(salt', pepper');
      SaltedApart(salt, pepper, pepper');
    }
  }

  lemma SaltedApart(salt: string, p: string, q: string)
    ensures KeyMaterial(salt, p) == KeyMaterial(salt, q) <==> p == q
  {
    if p != "" {
      assert KeyMaterial(salt, p)[|salt| + 1..] == p;
    }
    if q != "" {
      assert KeyMaterial(salt, q)[|salt| + 1..] == q;
    }
    assert |KeyMaterial(salt, "")| == |salt|;
  }

  // The salt ends at the first '|' of the key.
  lemma SaltOf(salt: string, pepper: string)
    requires '|' !in salt
    ensures var key := KeyMaterial(salt, pepper);
            && |salt| <= |key| && key[..|salt|] == salt
            && (forall i | 0 <= i < |salt| :: key[i] != '|')
            && (if pepper == "" then |key| == |salt| else |key| > |salt| && key[|salt|] == '|')
  {
  }

  datatype Basis = NationalId | InternalIdFallback
  datatype Scope = Bank | Regional
  datatype Signal = Signal(mosaic: string, scope: Scope, basis: Basis)

  // The identifying fields of one transaction, and the secrets of its gateway.
  datatype Raw = Raw(nationalId: string, id: string, name: string,
                     counterpartyNationalId: string, counterpartyId: string)
  datatype Gateway = Gateway(salt: string, pepper: string, regional: bool)

  function IdMessage(nid: string): string {
    "v3|id|" + nid
  }

  function LocalMessage(id: string, name: string): string {
    "v3|local|" + id + "|" + name
  }

  // The key and scope AnonymizeSignal uses for a national ID.
  function IdKey(g: Gateway): string {
    if g.regional then g.pepper else KeyMaterial(g.salt, g.pepper)
  }

  function IdScope(g: Gateway): Scope {
    if g.regional then Regional else Bank
  }

  // AnonymizeSignal, step 1.
  function Identity(u: Unicode, mac: Mac, g: Gateway, raw: Raw): Signal {
    var nid := NormalId(u, raw.nationalId);
    if nid != "" then Signal(mac(IdKey(g), IdMessage(nid)), IdScope(g), NationalId)
    else
      Signal(mac(KeyMaterial(g.salt, g.pepper), LocalMessage(NormalId(u, raw.id), NormalName(u, raw.name))),
             Bank, InternalIdFallback)
  }

  // AnonymizeSignal, the destination mosaic.
  function Destination(u: Unicode, mac: Mac, g: Gateway, raw: Raw): Option<Signal> {
    var cn := NormalId(u, raw.counterpartyNationalId);
    if cn != "" then Some(Signal(mac(IdKey(g), IdMessage(cn)), IdScope(g), NationalId))
    else if raw.counterpartyId != "" then
      Some(Signal(mac(KeyMaterial(g.salt, g.pepper), "v3|local|" + NormalId(u, raw.counterpartyId)),
                  Bank, InternalIdFallback))
    else None
  }

  // What a mosaic is meant to stand for.
  datatype Person = ByNationalId(nid: string) | ByRecord(id: string, name: string)

  function PersonOf(u: Unicode, raw: Raw): Person {
    var nid := NormalId(u, raw.nationalId);
    if nid != "" then ByNationalId(nid) else ByRecord(NormalId(u, raw.id), NormalName(u, raw.name))
  }

  function Message(p: Person): string {
    match p
    case ByNationalId(nid) => IdMessage(nid)
    case ByRecord(id, name) => LocalMessage(id, name)
  }

  lemma AppendCancels(p: string, a: string, b: string)
    ensures p + a == p + b <==> a == b
  {
    assert (p + a)[|p|..] == a && (p + b)[|p|..] == b;
  }

  // Different bases never give one message.
  lemma BasesDiffer(nid: string, rest: string)
    ensures IdMessage(nid) != "v3|local|" + rest
  {
    assert IdMessage(nid)[3] == 'i' && ("v3|local|" + rest)[3] == 'l';
  }

  lemma LocalMessageSplits(id: string, name: string, id': string, name': string)
    ensures LocalMessage(id, name) == LocalMessage(id', name') <==> id + "|" + name == id' + "|" + name'
  {
    var p := "v3|local|";
    assert LocalMessage(id, name) == p + (id + "|" + name);
    assert LocalMessage(id', name') == p + (id' + "|" + name');
    AppendCancels(p, id + "|" + name, id' + "|" + name');
  }

  // id' is id with a '|' and the start of its name moved over.
  predicate TakesOver(id: string, name: string, id': string, name': string) {
    id + "|" <= id' && name == id'[|id| + 1..] + "|" + name'
  }

  lemma TakeOverCollides(id: string, name: string, id': string, name': string)
    requires TakesOver(id, name, id', name')
    ensures LocalMessage(id, name) == LocalMessage(id', name')
  {
    LocalMessageSplits(id, name, id', name');
    assert id' == (id + "|") + id'[|id| + 1..];
    assert id' + "|" + name' == (id + "|") + (id'[|id| + 1..] + "|" + name');
  }

  lemma CollisionTakesOver(id: string, name: string, id': string, name': string)
    requires |id| <= |id'| && LocalMessage(id, name) == LocalMessage(id', name')
    ensures (id == id' && name == name') || TakesOver(id, name, id', name')
  {
    LocalMessageSplits(id, name, id', name');
    var a, b := id + "|" + name, id' + "|" + name';
    assert a[..|id|] == id && b[..|id'|] == id' && a[|id| + 1..] == name;
    if |id| == |id'| {
      assert b[|id| + 1..] == name';
    } else {
      assert a[..|id| + 1] == id + "|" && b[..|id| + 1] == id'[..|id| + 1];
      assert b[|id| + 1..] == id'[|id| + 1..] + "|" + name';
    }
  }

  // Two records share a message exactly when they are equal, or one takes over
  // part of the other's name.
  lemma LocalCollision(id: string, name: string, id': string, name': string)
    requires |id| <= |id'|
    ensures LocalMessage(id, name) == LocalMessage(id', name') <==>
            (id == id' && name == name') || TakesOver(id, name, id', name')
  {
    if LocalMessage(id, name) == LocalMessage(id', name') {
      CollisionTakesOver(id, name, id', name');
    }
    if TakesOver(id, name, id', name') {
      TakeOverCollides(id, name, id', name');
    }
  }

  lemma PrefixHasPipe(id: string, id': string)
    requires id + "|" <= id'
    ensures '|' in id'
  {
    assert id'[|id|] == '|';
  }

  // A '|' in the longer id is what a collision needs.
  lemma NoPipeNoCollision(id: string, name: string, id': string, name': string)
    requires '|' !in id && '|' !in id'
    ensures LocalMessage(id, name) == LocalMessage(id', name') <==> id == id' && name == name'
  {
    if |id| <= |id'| {
      LocalCollision(id, name, id', name');
    } else {
      LocalCollision(id', name', id, name);
    }
    if id + "|" <= id' {
      PrefixHasPipe(id, id');
    } else if id' + "|" <= id {
      PrefixHasPipe(id', id);
    }
  }

  ghost predicate PipeFree(p: Person) {
    p.ByRecord? ==> '|' !in p.id
  }

  // At one bank-keyed gateway two transactions share an identity mosaic exactly
  // when they are about the same person on the same basis, provided normalised
  // internal IDs contain no '|'.
  lemma IdentitySeparates(u: Unicode, mac: Mac, g: Gateway, a: Raw, b: Raw)
    requires !g.regional && InjectiveFor(mac, KeyMaterial(g.salt, g.pepper))
    requires PipeFree(PersonOf(u, a)) && PipeFree(PersonOf(u, b))
    ensures Identity(u, mac, g, a).mosaic == Identity(u, mac, g, b).mosaic <==> PersonOf(u, a) == PersonOf(u, b)
  {
    var p, q := PersonOf(u, a), PersonOf(u, b);
    assert Identity(u, mac, g, a).mosaic == mac(KeyMaterial(g.salt, g.pepper), Message(p));
    assert Identity(u, mac, g, b).mosaic == mac(KeyMaterial(g.salt, g.pepper), Message(q));
    MessagesDiffer(p, q);
  }

  lemma RecordMessage(id: string, name: string)
    ensures LocalMessage(id, name) == "v3|local|" + (id + "|" + name)
  {
  }

  ghost predicate Injective(mac: Mac) {
    forall k, m, l, n :: mac(k, m) == mac(l, n) ==> k == l && m == n
  }

  // Across gateways, when HMAC is injective in key and message: with a national ID
  // on both sides, regional mosaics meet exactly for one pepper and one ID, whatever
  // the salts; without one on either side, mosaics meet exactly for one key and one
  // record, whatever the keying; and the bases never meet. Scope and basis say which
  // of these a mosaic is.
  lemma MosaicsMeet(u: Unicode, mac: Mac, g: Gateway, h: Gateway, a: Raw, b: Raw)
    requires Injective(mac) && PipeFree(PersonOf(u, a)) && PipeFree(PersonOf(u, b))
    ensures var x, y := Identity(u, mac, g, a), Identity(u, mac, h, b);
            var m, n := NormalId(u, a.nationalId), NormalId(u, b.nationalId);
            && (m != "" && n != "" && g.regional && h.regional ==>
                  (x.mosaic == y.mosaic <==> g.pepper == h.pepper && m == n))
            && (m != "" && n != "" && !g.regional && !h.regional ==>
                  (x.mosaic == y.mosaic <==>
                     KeyMaterial(g.salt, g.pepper) == KeyMaterial(h.salt, h.pepper) && m == n))
            && (m == "" && n == "" ==>
                  (x.mosaic == y.mosaic <==>
                     && KeyMaterial(g.salt, g.pepper) == KeyMaterial(h.salt, h.pepper)
                     && NormalId(u, a.id) == NormalId(u, b.id) && NormalName(u, a.name) == NormalName(u, b.name)))
            && ((m == "") != (n == "") ==> x.mosaic != y.mosaic)
    ensures var x := Identity(u, mac, g, a);
            && (x.basis.NationalId? <==> NormalId(u, a.nationalId) != "")
            && (x.scope.Regional? <==> g.regional && NormalId(u, a.nationalId) != "")
  {
    var p, q := PersonOf(u, a), PersonOf(u, b);
    MessagesDiffer(p, q);
    var k := if p.ByNationalId? then IdKey(g) else KeyMaterial(g.salt, g.pepper);
    var l := if q.ByNationalId? then IdKey(h) else KeyMaterial(h.salt, h.pepper);
    assert Identity(u, mac, g, a).mosaic == mac(k, Message(p));
    assert Identity(u, mac, h, b).mosaic == mac(l, Message(q));
  }

  // One message, one person.
  lemma MessagesDiffer(p: Person, q: Person)
    requires PipeFree(p) && PipeFree(q)
    ensures Message(p) == Message(q) <==> p == q
  {
    match (p, q)
    case (ByNationalId(m), ByNationalId(n)) => AppendCancels("v3|id|", m, n);
    case (ByNationalId(m), ByRecord(id, name)) => RecordMessage(id, name); BasesDiffer(m, id + "|" + name);
    case (ByRecord(id, name), ByNationalId(n)) => RecordMessage(id, name); BasesDiffer(n, id + "|" + name);
    case (ByRecord(id, name), ByRecord(id', name')) => NoPipeNoCollision(id, name, id', name');
  }

  // The proviso is exact: whenever a normalised internal ID does contain a '|',
  // another transaction about another record has the same identity mosaic.
  lemma PipeConfuses(u: Unicode, mac: Mac, g: Gateway, a: Raw) returns (b: Raw)
    requires u.WellBehaved()
    requires PersonOf(u, a).ByRecord? && '|' in PersonOf(u, a).id
    ensures PersonOf(u, b).ByRecord? && PersonOf(u, b) != PersonOf(u, a)
    ensures Identity(u, mac, g, b) == Identity(u, mac, g, a)
  {
    var id := NormalId(u, a.id);
    NormalIdShape(u, a.id);
    var i :| 0 <= i < |id| && id[i] == '|';
    b := Raw("", id[..i], id[i + 1..] + "|" + NormalName(u, a.name), "", "");
    RecordIdentity(u, mac, g, a, id, NormalName(u, a.name));
    SplitRecord(u, a.name, id, i);
    RecordIdentity(u, mac, g, b, b.id, b.name);
    PipeSplits(id, i, NormalName(u, a.name));
  }

  // Both halves of an ID split at a '|' are normal as they stand.
  lemma SplitRecord(u: Unicode, name: string, id: string, i: nat)
    requires u.WellBehaved() && Solid(u, id) && Capital(u, id) && '-' !in id && '.' !in id
    requires i < |id|
    ensures NormalId(u, id[..i]) == id[..i]
    ensures var moved := id[i + 1..] + "|" + NormalName(u, name); NormalName(u, moved) == moved
  {
    IdFixes(u, id[..i]);
    MovedNameIsNormal(u, name, id[i + 1..]);
  }

  lemma RecordIdentity(u: Unicode, mac: Mac, g: Gateway, raw: Raw, id: string, name: string)
    requires NormalId(u, raw.nationalId) == "" && NormalId(u, raw.id) == id && NormalName(u, raw.name) == name
    ensures PersonOf(u, raw) == ByRecord(id, name)
    ensures Identity(u, mac, g, raw) ==
            Signal(mac(KeyMaterial(g.salt, g.pepper), LocalMessage(id, name)), Bank, InternalIdFallback)
  {
  }

  lemma PipeSplits(id: string, i: nat, name: string)
    requires i < |id| && id[i] == '|'
    ensures LocalMessage(id[..i], id[i + 1..] + "|" + name) == LocalMessage(id, name)
  {
    assert id[..i] + "|" == id[..i + 1];
    TakeOverCollides(id[..i], id[i + 1..] + "|" + name, id, name);
  }

  // A solid prefix and a '|' in front of a normalised name leave it normalised.
  lemma MovedNameIsNormal(u: Unicode, name: string, prefix: string)
    requires u.WellBehaved() && Solid(u, prefix) && Capital(u, prefix)
    ensures NormalName(u, prefix + "|" + NormalName(u, name)) == prefix + "|" + NormalName(u, name)
  {
    var ws := Fields(u, Upper(u, name));
    assert Capital(u, Upper(u, name));
    FieldsAreWords(u, Upper(u, name));
    var head := prefix + "|";
    if ws == [] {
      assert head + Join(ws) == Join([head]);
      NameWords(u, [head]);
    } else {
      var ws' := [head + ws[0]] + ws[1..];
      assert ws'[1..] == ws[1..];
      assert ws[0] in ws;
      assert forall w | w in ws' :: w == head + ws[0] || w in ws;
      if |ws| > 1 {
        assert head + (ws[0] + " " + Join(ws[1..])) == (head + ws[0]) + " " + Join(ws[1..]);
      }
      assert Join(ws') == head + Join(ws);
      NameWords(u, ws');
    }
  }

  // Route following: with a national ID for the counterparty, the destination
  // mosaic is the counterparty's own identity mosaic, in value, scope and basis,
  // when they transact: at any gateway with the same secrets in bank keying, at
  // any gateway with the same pepper in regional keying.
  lemma DestinationIsTheirIdentity(u: Unicode, mac: Mac, g: Gateway, h: Gateway, a: Raw, b: Raw)
    requires g.regional == h.regional && g.pepper == h.pepper && (g.regional || g.salt == h.salt)
    requires NormalId(u, a.counterpartyNationalId) == NormalId(u, b.nationalId) != ""
    ensures Destination(u, mac, g, a) == Some(Identity(u, mac, h, b))
  {
  }

  // And only then, at one bank-keyed gateway.
  lemma DestinationOnlyTheirs(u: Unicode, mac: Mac, g: Gateway, a: Raw, b: Raw)
    requires !g.regional && InjectiveFor(mac, KeyMaterial(g.salt, g.pepper))
    requires Destination(u, mac, g, a).Some? && Destination(u, mac, g, a).value.basis.NationalId?
    ensures Destination(u, mac, g, a).value.mosaic == Identity(u, mac, g, b).mosaic
            <==> PersonOf(u, b) == ByNationalId(NormalId(u, a.counterpartyNationalId))
  {
    var cn := NormalId(u, a.counterpartyNationalId);
    var p := PersonOf(u, b);
    assert Identity(u, mac, g, b).mosaic == mac(KeyMaterial(g.salt, g.pepper), Message(p));
    match p
    case ByNationalId(n) => AppendCancels("v3|id|", cn, n);
    case ByRecord(id, name) => RecordMessage(id, name); BasesDiffer(cn, id + "|" + name);
  }

  // There is a destination mosaic exactly when something names the counterparty; at
  // one bank-keyed gateway two of them are equal exactly for one normalised ID of
  // one kind.
  lemma DestinationSeparates(u: Unicode, mac: Mac, g: Gateway, a: Raw, b: Raw)
    requires !g.regional && InjectiveFor(mac, KeyMaterial(g.salt, g.pepper))
    ensures Destination(u, mac, g, a).Some? <==> NormalId(u, a.counterpartyNationalId) != "" || a.counterpartyId != ""
    ensures Destination(u, mac, g, a).Some? && Destination(u, mac, g, b).Some? ==>
              var m, n := NormalId(u, a.counterpartyNationalId), NormalId(u, b.counterpartyNationalId);
              Destination(u, mac, g, a).value.mosaic == Destination(u, mac, g, b).value.mosaic <==>
              m == n && (m == "" ==> NormalId(u, a.counterpartyId) == NormalId(u, b.counterpartyId))
  {
    var m, n := NormalId(u, a.counterpartyNationalId), NormalId(u, b.counterpartyNationalId);
    var c, d := NormalId(u, a.counterpartyId), NormalId(u, b.counterpartyId);
    AppendCancels("v3|id|", m, n);
    AppendCancels("v3|local|", c, d);
    BasesDiffer(m, d);
    BasesDiffer(n, c);
  }

  // The same across gateways, for HMAC injective in key and message: national IDs
  // meet under one pepper in regional keying, under one key in bank keying; internal
  // IDs always under one key, whatever the keying. Scope and basis say which.
  lemma DestinationsMeet(u: Unicode, mac: Mac, g: Gateway, h: Gateway, a: Raw, b: Raw)
    requires Injective(mac)
    ensures var x, y := Destination(u, mac, g, a), Destination(u, mac, h, b);
            var m, n := NormalId(u, a.counterpartyNationalId), NormalId(u, b.counterpartyNationalId);
            var one := KeyMaterial(g.salt, g.pepper) == KeyMaterial(h.salt, h.pepper);
            x.Some? && y.Some? ==>
              && (m != "" && n != "" && g.regional && h.regional ==>
                    (x.value.mosaic == y.value.mosaic <==> g.pepper == h.pepper && m == n))
              && (m != "" && n != "" && !g.regional && !h.regional ==>
                    (x.value.mosaic == y.value.mosaic <==> one && m == n))
              && (m == "" && n == "" ==>
                    (x.value.mosaic == y.value.mosaic <==>
                       one && NormalId(u, a.counterpartyId) == NormalId(u, b.counterpartyId)))
              && ((m == "") != (n == "") ==> x.value.mosaic != y.value.mosaic)
    ensures var x := Destination(u, mac, g, a);
            x.Some? ==>
              && (x.value.basis.NationalId? <==> NormalId(u, a.counterpartyNationalId) != "")
              && (x.value.scope.Regional? <==> g.regional && NormalId(u, a.counterpartyNationalId) != "")
  {
    var m, n := NormalId(u, a.counterpartyNationalId), NormalId(u, b.counterpartyNationalId);
    var c, d := NormalId(u, a.counterpartyId), NormalId(u, b.counterpartyId);
    AppendCancels("v3|id|", m, n);
    AppendCancels("v3|local|", c, d);
    BasesDiffer(m, d);
    BasesDiffer(n, c);
  }

  // A counterparty known only by an internal ID cannot be followed: that
  // destination mosaic carries no name, and equals no identity mosaic of the
  // gateway unless the ID contains a '|'.
  lemma FallbackDestinationMatchesNobody(u: Unicode, mac: Mac, g: Gateway, a: Raw, b: Raw)
    requires !g.regional && InjectiveFor(mac, KeyMaterial(g.salt, g.pepper))
    requires NormalId(u, a.counterpartyNationalId) == "" && a.counterpartyId != ""
    requires '|' !in NormalId(u, a.counterpartyId)
    ensures Destination(u, mac, g, a).Some?
    ensures Destination(u, mac, g, a).value.mosaic != Identity(u, mac, g, b).mosaic
  {
    var c, p := NormalId(u, a.counterpartyId), PersonOf(u, b);
    assert Identity(u, mac, g, b).mosaic == mac(KeyMaterial(g.salt, g.pepper), Message(p));
    match p
    case ByNationalId(n) => BasesDiffer(n, c);
    case ByRecord(id, name) =>
      RecordMessage(id, name);
      AppendCancels("v3|local|", c, id + "|" + name);
      assert (id + "|" + name)[|id|] == '|';
  }
}
