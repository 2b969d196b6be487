/** References of the form `<family>:<block>:<uid_ref>`. */
module References {
  import opened Json

  predicate IsAlnum(c: char) {
    'a' <= c <= 'z' || 'A' <= c <= 'Z' || '0' <= c <= '9'
  }

  predicate IsUid(s: string) {
    && 1 <= |s| <= 128 && IsAlnum(s[0])
    && forall c | c in s :: IsAlnum(c) || c in {'_', '.', ':', '-'}
  }

  /** `$` matches before one trailing newline. */
  function Chomp(s: string): string {
    if s != "" && s[|s| - 1] == '\n' then s[..|s| - 1] else s
  }

  /** The uid_ref of a reference matching `^<lead>(<uid_ref>)$`. */
  function LocalPart(lead: string, ref: string): (r: Option<string>)
    ensures r.Some? ==> IsUid(r.value)
  {
    var s := Chomp(ref);
    if lead <= s && IsUid(s[|lead|..]) then Some(s[|lead|..]) else None
  }

  /** A reference has a local part exactly when it is the prefix and a well-formed uid,
      a final newline aside. */
  lemma PartIs(lead: string, ref: string, u: string)
    ensures LocalPart(lead, ref) == Some(u) <==> IsUid(u) && ref in {lead + u, lead + u + "\n"}
  {
    if IsUid(u) && ref == lead + u {
      assert ref[|ref| - 1] == u[|u| - 1] && u[|u| - 1] in u;
      assert Chomp(ref) == ref && ref[|lead|..] == u;
    } else if IsUid(u) && ref == lead + u + "\n" {
      assert Chomp(ref) == lead + u && (lead + u)[|lead|..] == u;
    }
    if LocalPart(lead, ref) == Some(u) {
      assert Chomp(ref) == lead + u;
    }
  }
}
