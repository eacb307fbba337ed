/**
 * The string form of a member's role ids: written with `", ".join(...)`
 * when a member is muted or leaves a guild, and read back with
 * `split(", ")`, dropping empty pieces and converting each piece with `int`.
 */
module RoleIds {
  import opened Wrappers
  import opened Decimal

  /** A role of a member: its id and whether an integration manages it. */
  datatype Role = Role(id: nat, managed: bool)

  predicate NoComma(s: string) {
    forall k :: 0 <= k < |s| ==> s[k] != ','
  }

  /** `", ".join(pieces)`. */
  function Join(pieces: seq<string>): string
  {
    if |pieces| == 0 then ""
    else if |pieces| == 1 then pieces[0]
    else pieces[0] + ", " + Join(pieces[1..])
  }

  /** `s.split(", ")`: the pieces between non-overlapping separators, scanned left to right. */
  function Split(s: string): (pieces: seq<string>)
    ensures |pieces| >= 1
  {
    if s == [] then [""]
    else if |s| >= 2 && s[0] == ',' && s[1] == ' ' then [""] + Split(s[2..])
    else
      var rest := Split(s[1..]);
      [[s[0]] + rest[0]] + rest[1..]
  }

  /** `[p for p in pieces if len(p)]`. */
  function NonEmpty(pieces: seq<string>): (r: seq<string>)
    ensures forall k :: 0 <= k < |r| ==> r[k] != []
    ensures forall p :: p in r <==> p in pieces && p != []
  {
    if pieces == [] then []
    else if pieces[0] == [] then NonEmpty(pieces[1..])
    else [pieces[0]] + NonEmpty(pieces[1..])
  }

  /** `int(p)` for every piece; the first piece that is not a number raises. */
  function ParseAll(pieces: seq<string>): (r: Option<seq<nat>>)
    ensures r.Some? <==> forall k :: 0 <= k < |pieces| ==> ParseDecimal(pieces[k]).Some?
    ensures r.Some? ==> |r.value| == |pieces| && forall k :: 0 <= k < |pieces| ==> ParseDecimal(pieces[k]) == Some(r.value[k])
  {
    if pieces == [] then Some([])
    else match (ParseDecimal(pieces[0]), ParseAll(pieces[1..]))
      case (Some(n), Some(ns)) => Some([n] + ns)
      case _ => None
  }

  /** The stored string for a list of role ids. */
  function JoinRoleIds(ids: seq<nat>): string
  {
    Join(seq(|ids|, k requires 0 <= k < |ids| => DecimalString(ids[k])))
  }

  /** The role ids read back from a stored string, or None when a piece is not a number. */
  function ParseRoleIds(s: string): Option<seq<nat>>
  {
    ParseAll(NonEmpty(Split(s)))
  }

  /** Ids of all roles a member holds (stored when the member is muted). */
  function AllRoleIds(roles: seq<Role>): (ids: seq<nat>)
    ensures |ids| == |roles| && forall k :: 0 <= k < |roles| ==> ids[k] == roles[k].id
  {
    seq(|roles|, k requires 0 <= k < |roles| => roles[k].id)
  }

  /** Ids of the roles no integration manages (stored when the member leaves). */
  function UnmanagedRoleIds(roles: seq<Role>): (ids: seq<nat>)
    ensures forall id :: id in ids <==> exists r :: r in roles && !r.managed && r.id == id
  {
    if roles == [] then []
    else (if roles[0].managed then [] else [roles[0].id]) + UnmanagedRoleIds(roles[1..])
  }

  // ---------------------------------------------------------------- lemmas

  lemma {:induction false} SplitNoCommaPrefix(p: string, t: string)
    requires NoComma(p)
    ensures Split(p + t) == [p + Split(t)[0]] + Split(t)[1..]
  {
    if p != [] {
      var p' := p[1..];
      assert (p + t)[1..] == p' + t;
      assert (p + t)[0] == p[0] != ',';
      SplitNoCommaPrefix(p', t);
      var rest := Split(p' + t);
      assert Split(p + t) == [[p[0]] + rest[0]] + rest[1..];
      var st := Split(t);
      assert rest[0] == p' + st[0] && rest[1..] == st[1..];
      assert [p[0]] + (p' + st[0]) == p + st[0];
    }
    else {
      assert p + t == t;
      var st := Split(t);
      assert p + st[0] == st[0];
      assert [st[0]] + st[1..] == st;
    }
  }

  /** Splitting what was joined gives back the pieces, when no piece holds a comma. */
  lemma {:induction false} SplitJoin(pieces: seq<string>)
    requires |pieces| >= 1
    requires forall k :: 0 <= k < |pieces| ==> NoComma(pieces[k])
    ensures Split(Join(pieces)) == pieces
  {
    var p := pieces[0];
    if |pieces| == 1 {
      SplitNoCommaPrefix(p, "");
      assert p + "" == p;
    } else {
      var rest := pieces[1..];
      SplitJoin(rest);
      var t := ", " + Join(rest);
      assert Join(pieces) == p + t;
      assert t[2..] == Join(rest);
      SplitNoCommaPrefix(p, t);
      assert p + "" == p;
      assert pieces == [p] + rest;
    }
  }

  /** Joining pieces whose first one starts with `c` puts `c` in front of the join. */
  lemma JoinConsChar(c: char, head: string, tail: seq<string>)
    ensures Join([[c] + head] + tail) == [c] + Join([head] + tail)
  {
    var pieces := [[c] + head] + tail;
    var plain := [head] + tail;
    if tail != [] {
      assert pieces[1..] == tail && plain[1..] == tail;
      var rest := ", " + Join(tail);
      calc {
        Join(pieces);
        ([c] + head) + ", " + Join(tail);
        [c] + (head + rest);
        [c] + Join(plain);
      }
    }
  }

  /** Joining what was split gives back the string. */
  lemma {:induction false} JoinSplit(s: string)
    ensures Join(Split(s)) == s
  {
    if s == [] {
    } else if |s| >= 2 && s[0] == ',' && s[1] == ' ' {
      JoinSplit(s[2..]);
      var rest := Split(s[2..]);
      assert Split(s) == [""] + rest;
      assert ([""] + rest)[1..] == rest;
      assert s == ", " + s[2..];
    } else {
      JoinSplit(s[1..]);
      var rest := Split(s[1..]);
      assert Split(s) == [[s[0]] + rest[0]] + rest[1..];
      JoinConsChar(s[0], rest[0], rest[1..]);
      assert [rest[0]] + rest[1..] == rest;
      assert s == [s[0]] + s[1..];
    }
  }

  lemma {:induction false} NonEmptyKeeps(pieces: seq<string>)
    requires forall k :: 0 <= k < |pieces| ==> pieces[k] != []
    ensures NonEmpty(pieces) == pieces
  {
    if pieces != [] {
      NonEmptyKeeps(pieces[1..]);
    }
  }

  lemma {:induction false} ParseAllDecimals(ids: seq<nat>)
    ensures ParseAll(seq(|ids|, k requires 0 <= k < |ids| => DecimalString(ids[k]))) == Some(ids)
  {
    var pieces := seq(|ids|, k requires 0 <= k < |ids| => DecimalString(ids[k]));
    if ids != [] {
      DecimalRoundTrip(ids[0]);
      ParseAllDecimals(ids[1..]);
      assert pieces[1..] == seq(|ids[1..]|, k requires 0 <= k < |ids[1..]| => DecimalString(ids[1..][k]));
      assert ids == [ids[0]] + ids[1..];
    }
  }

  /** Parsing the stored string gives back exactly the ids that were stored, in order. */
  lemma RoleIdsRoundTrip(ids: seq<nat>)
    ensures ParseRoleIds(JoinRoleIds(ids)) == Some(ids)
  {
    var pieces := seq(|ids|, k requires 0 <= k < |ids| => DecimalString(ids[k]));
    forall k | 0 <= k < |pieces| ensures NoComma(pieces[k]) && pieces[k] != [] {
      assert AllDigits(pieces[k]);
    }
    if ids == [] {
      assert JoinRoleIds(ids) == "";
    } else {
      SplitJoin(pieces);
    }
    NonEmptyKeeps(pieces);
    ParseAllDecimals(ids);
  }

  /** A member who left gets back exactly their unmanaged roles' ids. */
  lemma PersistedRolesRoundTrip(roles: seq<Role>)
    ensures ParseRoleIds(JoinRoleIds(UnmanagedRoleIds(roles))) == Some(UnmanagedRoleIds(roles))
    ensures forall id :: id in UnmanagedRoleIds(roles) <==> exists r :: r in roles && !r.managed && r.id == id
  {
    RoleIdsRoundTrip(UnmanagedRoleIds(roles));
  }
}
