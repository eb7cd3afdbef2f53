/** The text the session slot holds: `JSON.stringify` of the user object
    (keys in the order id, name, email, role) and the `JSON.parse` that reads
    it back on restore (src/contexts/AuthContext.tsx). */
module SessionCodec {
  import opened Wrappers
  import opened Identity
  import opened Text

  /** The body of a JSON string literal: `"` and `\` are escaped. */
  function Escape(s: string): string {
    if |s| == 0 then ""
    else if s[0] == '"' || s[0] == '\\' then ['\\', s[0]] + Escape(s[1..])
    else [s[0]] + Escape(s[1..])
  }

  /** Reads the body of a string literal up to its closing quote and returns
      the unescaped value with the text after the quote; `None` for text that
      ends early or holds an escape the encoder never writes. */
  function Unquote(s: string): Option<(string, string)> {
    if |s| == 0 then None
    else if s[0] == '"' then Some(("", s[1..]))
    else if s[0] == '\\' then
      if |s| >= 2 && (s[1] == '"' || s[1] == '\\') then
        match Unquote(s[2..])
        case None => None
        case Some(p) => Some(([s[1]] + p.0, p.1))
      else None
    else
      match Unquote(s[1..])
      case None => None
      case Some(p) => Some(([s[0]] + p.0, p.1))
  }

  /** `"key":"value"` with the value escaped. */
  function Member(key: string, value: string): string {
    "\"" + key + "\":\"" + Escape(value) + "\""
  }

  /** `JSON.stringify(user)`; written right-nested, field after field. */
  function Serialize(u: User): (text: string)
    ensures |text| > 0 && text[0] == '{'
  {
    "{" + (Member("id", u.id) + ("," + (Member("name", u.name) + ("," +
    (Member("email", u.email) + ("," + (Member("role", RoleName(u.role)) + "}")))))))
  }

  /** Consumes `lit` at the head of `s`. */
  function Expect(lit: string, s: string): Option<string> {
    if StartsWith(s, lit) then Some(s[|lit|..]) else None
  }

  /** Consumes `"key":"` and the value after it. */
  function ReadMember(key: string, s: string): Option<(string, string)> {
    var rest :- Expect("\"" + key + "\":\"", s);
    Unquote(rest)
  }

  /** `JSON.parse` of the slot, for text of the shape `Serialize` writes;
      any other text is one `JSON.parse` rejects or one that is not a user.
      Whatever it accepts is the stored text of the user it returns. */
  function Parse(text: string): (r: Option<User>)
    ensures r.Some? ==> Serialize(r.value) == text
  {
    ExpectInverse("{", text);
    var r0 :- Expect("{", text);
    var first :- ReadPair("id", "name", r0);
    ExpectInverse(",", first.2);
    var r1 :- Expect(",", first.2);
    var second :- ReadPair("email", "role", r1);
    ExpectInverse("}", second.2);
    var r2 :- Expect("}", second.2);
    if r2 != "" then None
    else
      var role :- RoleFromName(second.1);
      Some(User(first.0, first.1, second.0, role))
  }

  /** Reads the member `k1`, a comma and the member `k2`: their two values
      and the text after them. */
  function ReadPair(k1: string, k2: string, s: string): (r: Option<(string, string, string)>)
    ensures r.Some? ==> s == Member(k1, r.value.0) + ("," + (Member(k2, r.value.1) + r.value.2))
  {
    ReadMemberInverse(k1, s);
    var a :- ReadMember(k1, s);
    ExpectInverse(",", a.1);
    var rest :- Expect(",", a.1);
    ReadMemberInverse(k2, rest);
    var b :- ReadMember(k2, rest);
    Some((a.0, b.0, b.1))
  }

  /** What `Expect` consumes is exactly `lit`. */
  lemma ExpectInverse(lit: string, s: string)
    ensures Expect(lit, s).Some? ==> s == lit + Expect(lit, s).value
  {
    if Expect(lit, s).Some? {
      assert s == s[..|lit|] + s[|lit|..];
    }
  }

  /** Whatever `Unquote` accepts is the escaped value, the closing quote and
      the rest: the encoder's escaping is the only one read. */
  lemma {:induction false} UnquoteInverse(s: string)
    ensures Unquote(s).Some? ==> s == Escape(Unquote(s).value.0) + "\"" + Unquote(s).value.1
  {
    if |s| > 0 && Unquote(s).Some? {
      var p := Unquote(s).value;
      if s[0] == '"' {
        assert s == "\"" + s[1..];
      } else if s[0] == '\\' {
        UnquoteInverse(s[2..]);
        var q := Unquote(s[2..]).value;
        assert p.0 == [s[1]] + q.0;
        assert p.0[1..] == q.0;
        assert Escape(p.0) == ['\\', s[1]] + Escape(q.0);
        assert s == ['\\', s[1]] + s[2..];
      } else {
        UnquoteInverse(s[1..]);
        var q := Unquote(s[1..]).value;
        assert p.0 == [s[0]] + q.0;
        assert p.0[1..] == q.0;
        assert Escape(p.0) == [s[0]] + Escape(q.0);
        assert s == [s[0]] + s[1..];
      }
    }
  }

  /** Whatever `ReadMember` accepts is that member followed by the rest. */
  lemma ReadMemberInverse(key: string, s: string)
    ensures ReadMember(key, s).Some? ==>
      s == Member(key, ReadMember(key, s).value.0) + ReadMember(key, s).value.1
  {
    var prefix := "\"" + key + "\":\"";
    ExpectInverse(prefix, s);
    if ReadMember(key, s).Some? {
      var rest := Expect(prefix, s).value;
      UnquoteInverse(rest);
      var v := ReadMember(key, s).value;
      assert s == prefix + (Escape(v.0) + "\"" + v.1);
    }
  }

  /** Unquoting an escaped value followed by the closing quote gives the value
      back and stops right after the quote. */
  lemma {:induction false} UnquoteEscape(v: string, rest: string)
    ensures Unquote(Escape(v) + "\"" + rest) == Some((v, rest))
  {
    if |v| == 0 {
      assert Escape(v) + "\"" + rest == "\"" + rest;
    } else {
      var tail := Escape(v[1..]) + "\"" + rest;
      UnquoteEscape(v[1..], rest);
      if v[0] == '"' || v[0] == '\\' {
        assert Escape(v) == ['\\', v[0]] + Escape(v[1..]);
        assert Escape(v) + "\"" + rest == ['\\', v[0]] + tail;
        UnquoteEscapedChar(v[0], tail);
      } else {
        assert Escape(v) == [v[0]] + Escape(v[1..]);
        assert Escape(v) + "\"" + rest == [v[0]] + tail;
        UnquotePlainChar(v[0], tail);
      }
      assert [v[0]] + v[1..] == v;
    }
  }

  /** One escaped quote or backslash is read as that character. */
  lemma UnquoteEscapedChar(c: char, tail: string)
    requires c == '"' || c == '\\'
    requires Unquote(tail).Some?
    ensures Unquote(['\\', c] + tail) == Some(([c] + Unquote(tail).value.0, Unquote(tail).value.1))
  {
    assert (['\\', c] + tail)[2..] == tail;
  }

  /** Any other character is read as itself. */
  lemma UnquotePlainChar(c: char, tail: string)
    requires c != '"' && c != '\\'
    requires Unquote(tail).Some?
    ensures Unquote([c] + tail) == Some(([c] + Unquote(tail).value.0, Unquote(tail).value.1))
  {
    assert ([c] + tail)[1..] == tail;
  }

  lemma ExpectPrefix(lit: string, rest: string)
    ensures Expect(lit, lit + rest) == Some(rest)
  {
    assert (lit + rest)[..|lit|] == lit;
    assert (lit + rest)[|lit|..] == rest;
  }

  lemma ReadMemberOf(key: string, v: string, rest: string)
    ensures ReadMember(key, Member(key, v) + rest) == Some((v, rest))
  {
    var prefix := "\"" + key + "\":\"";
    assert Member(key, v) + rest == prefix + (Escape(v) + "\"" + rest);
    ExpectPrefix(prefix, Escape(v) + "\"" + rest);
    UnquoteEscape(v, rest);
  }

  /** Two members written one after the other read back as their values. */
  lemma ReadPairOf(k1: string, v1: string, k2: string, v2: string, rest: string)
    ensures ReadPair(k1, k2, Member(k1, v1) + ("," + (Member(k2, v2) + rest))) == Some((v1, v2, rest))
  {
    var tail := Member(k2, v2) + rest;
    ReadMemberOf(k1, v1, "," + tail);
    ExpectPrefix(",", tail);
    ReadMemberOf(k2, v2, rest);
  }

  /** Round trip: what the slot is given is what restore reads back. */
  lemma ParseSerialize(u: User)
    ensures Parse(Serialize(u)) == Some(u)
  {
    var roleText := RoleName(u.role);
    var t2 := "}";
    var t1 := Member("email", u.email) + ("," + (Member("role", roleText) + t2));
    var t0 := Member("id", u.id) + ("," + (Member("name", u.name) + ("," + t1)));
    assert Serialize(u) == "{" + t0;
    ExpectPrefix("{", t0);
    ReadPairOf("id", u.id, "name", u.name, "," + t1);
    ExpectPrefix(",", t1);
    ReadPairOf("email", u.email, "role", roleText, t2);
    ExpectPrefix("}", "");
    assert t2 == "}" + "";
    RoleNameRoundTrip(u.role);
  }
}
