/** Values shared by every part of the server model: optional values, the
    truthiness test the handlers apply to request fields, and the string form
    of database object ids. */
module Common {

  datatype Option<+T> = None | Some(value: T)

  /** A JSON request body. Only string-valued fields are modelled; a key that
      is not in the map is a field the client did not send. */
  type Body = map<string, string>

  /** JavaScript truthiness of `body[key]` when the field is a string or
      missing: `undefined` and "" are falsy, every other string is truthy. */
  predicate Given(body: Body, key: string)
  {
    key in body && body[key] != ""
  }

  /** Truthiness of an optional configuration string (an environment variable). */
  predicate Truthy(s: Option<string>)
  {
    s.Some? && s.value != ""
  }

  predicate IsHexDigit(c: char)
  {
    '0' <= c <= '9' || 'a' <= c <= 'f' || 'A' <= c <= 'F'
  }

  predicate IsLowerHexDigit(c: char)
  {
    '0' <= c <= '9' || 'a' <= c <= 'f'
  }

  /** The printed form of an ObjectId: 24 lower-case hexadecimal digits. */
  predicate IsObjectId(s: string)
  {
    |s| == 24 && forall i :: 0 <= i < |s| ==> IsLowerHexDigit(s[i])
  }

  type ObjectId = s: string | IsObjectId(s) witness "000000000000000000000000"

  function LowerHex(c: char): (d: char)
    requires IsHexDigit(c)
    ensures IsLowerHexDigit(d)
    ensures 'A' <= c <= 'F' ==> d as int == c as int + 32
    ensures !('A' <= c <= 'F') ==> d == c
  {
    if 'A' <= c <= 'F' then (c as int + 32) as char else c
  }

  /** Casting a path or payload string to an ObjectId, as the database driver
      does: exactly 24 hexadecimal digits of either case are accepted and
      denote the id printed in lower case; anything else cannot be cast. */
  function CastObjectId(s: string): (r: Option<ObjectId>)
    ensures r.Some? <==> |s| == 24 && forall i :: 0 <= i < |s| ==> IsHexDigit(s[i])
    ensures r.Some? ==> forall i :: 0 <= i < 24 ==> r.value[i] == LowerHex(s[i])
  {
    if |s| == 24 && forall i :: 0 <= i < |s| ==> IsHexDigit(s[i]) then
      var id := seq(24, i requires 0 <= i < 24 => LowerHex(s[i]));
      Some(id)
    else
      None
  }

  /** A printed id casts back to itself. */
  lemma CastPrintedId(id: ObjectId)
    ensures CastObjectId(id) == Some(id)
  {
    var r := CastObjectId(id);
    assert forall i :: 0 <= i < |id| ==> IsHexDigit(id[i]) by {
      forall i | 0 <= i < |id| ensures IsHexDigit(id[i]) {
        assert IsLowerHexDigit(id[i]);
      }
    }
    assert r.value == id;
  }
}
