/** What the sharing diff sees of a payload survives what the provider does to it: e-mail
    folding, the copying of permission flags, the marker text, and partial updates
    (keeper_sdk/core/sharing_diff.py, keeper_sdk/providers/mock.py). */
module SharingPayloads {
  import opened Json
  import opened PamDiff
  import opened MockProvider
  import opened SharingDiff

  /** Normalising an e-mail address twice is normalising it once. */
  ghost predicate EmailSound(env: Env) {
    forall v :: env.email(v).JStr? && env.email(env.email(v)) == env.email(v)
  }

  // --------------------------------------------------- what keeps a row's grantee and key

  /** The part of a payload that names the grantee. */
  ghost predicate SameGranteePart(p: Dict, q: Dict) {
    forall k | k in {"grantee", "user_email", "team_uid_ref"} :: Get(p, k) == Get(q, k)
  }

  lemma GranteeDepends(env: Env, p: Dict, q: Dict)
    requires SameGranteePart(p, q)
    ensures GranteeOf(env, p) == GranteeOf(env, q)
  {
    assert Get(p, "grantee") == Get(q, "grantee") && Get(p, "user_email") == Get(q, "user_email")
           && Get(p, "team_uid_ref") == Get(q, "team_uid_ref");
  }

  lemma EmailAgain(env: Env, v: Json)
    requires EmailSound(env)
    ensures env.email(v) == JStr(EmailText(env, v)) && EmailText(env, env.email(v)) == EmailText(env, v)
  {}

  lemma GranteeNormalised(env: Env, p: Dict)
    requires EmailSound(env)
    ensures GranteeOf(env, NormaliseEmail(env, p)) == GranteeOf(env, p)
  {
    var g := DictOrEmpty(Get(p, "grantee"));
    if Get(g, "kind") == JStr("user") && Get(g, "user_email") != JNull {
      EmailAgain(env, g["user_email"]);
    } else if Get(p, "user_email") != JNull {
      EmailAgain(env, p["user_email"]);
    }
  }

  lemma GranteeProjected(env: Env, b: Block, p: Dict)
    requires EmailSound(env)
    ensures GranteeOf(env, WithGrantee(env, b, p)) == GranteeOf(env, p)
  {
    var g := DictOrEmpty(Get(p, "grantee"));
    if Get(g, "kind") == JStr("user") && Get(g, "user_email") != JNull {
      EmailAgain(env, g["user_email"]);
    } else if Get(p, "user_email") != JNull {
      EmailAgain(env, p["user_email"]);
    }
  }

  lemma KeyDepends(env: Env, b: Block, p: Dict, q: Dict)
    requires GranteeOf(env, p) == GranteeOf(env, q)
    requires forall k | k in {"record_uid_ref", "shared_folder_uid_ref", "kind"} :: Get(p, k) == Get(q, k)
    ensures KeyOf(env, b, p) == KeyOf(env, b, q)
  {
    assert Get(p, "record_uid_ref") == Get(q, "record_uid_ref") && Get(p, "kind") == Get(q, "kind")
           && Get(p, "shared_folder_uid_ref") == Get(q, "shared_folder_uid_ref");
  }

  /** Projection keeps the key. */
  lemma KeyProjected(env: Env, b: Block, p: Dict)
    requires EmailSound(env)
    ensures KeyOf(env, b, Project(env, b, p)) == KeyOf(env, b, p)
  {
    var flat := Flatten(b, p);
    FlattenKeeps(b, p);
    GranteeDepends(env, p, flat);
    GranteeProjected(env, b, flat);
    KeyDepends(env, b, p, Project(env, b, p));
  }

  lemma FlattenKeeps(b: Block, p: Dict)
    ensures forall k | k !in FlatFlags(b) :: Get(Flatten(b, p), k) == Get(p, k)
    ensures SameGranteePart(p, Flatten(b, p))
  {}

  lemma KeyMailed(env: Env, b: Block, p: Dict)
    requires EmailSound(env)
    ensures KeyOf(env, b, NormaliseEmail(env, p)) == KeyOf(env, b, p)
  {
    GranteeNormalised(env, p);
    KeyDepends(env, b, p, NormaliseEmail(env, p));
  }

  lemma SyncKeeps(p: Dict)
    ensures forall k | k !in PERMISSIONS && k != "permissions" :: Get(SyncPermissions(p), k) == Get(p, k)
    ensures SameGranteePart(p, SyncPermissions(p))
  {}

  lemma KeySynced(env: Env, b: Block, p: Dict)
    ensures KeyOf(env, b, SyncPermissions(p)) == KeyOf(env, b, p)
  {
    SyncKeeps(p);
    GranteeDepends(env, p, SyncPermissions(p));
    KeyDepends(env, b, p, SyncPermissions(p));
  }

  lemma KeyMarked(env: Env, b: Block, p: Dict, text: string)
    ensures KeyOf(env, b, WithMarkerText(p, text)) == KeyOf(env, b, p)
  {
    GranteeDepends(env, p, WithMarkerText(p, text));
    KeyDepends(env, b, p, WithMarkerText(p, text));
  }

  /** So does everything the provider does to a payload before storing it, in whichever
      block it takes the record to be. */
  lemma KeyStored(env: Env, b: Block, resource: string, p: Dict, text: string)
    requires EmailSound(env)
    ensures KeyOf(env, b, WithMarkerText(Normalise(env, resource, p), text)) == KeyOf(env, b, p)
  {
    hide KeyOf, NormaliseEmail, SyncPermissions, WithMarkerText;
    KeyMailed(env, b, p);
    KeySynced(env, b, p);
    KeySynced(env, b, NormaliseEmail(env, p));
    KeyMarked(env, b, Normalise(env, resource, p), text);
  }

  lemma ComparedByFolders(b: Block)
    ensures Compared(b) <= Compared(ShareFolder)
  {}

  /** Writing compared fields of either block, or a marker, keeps the key. */
  lemma KeyUpdated(env: Env, b: Block, p: Dict, after: Dict)
    requires forall k | k in after :: k in Compared(ShareFolder) || k == "marker"
    ensures KeyOf(env, b, p + after) == KeyOf(env, b, p)
  {
    GranteeDepends(env, p, p + after);
    KeyDepends(env, b, p, p + after);
  }

  // -------------------------------------------------------------- what comparing will see

  /** A compared field, as the projection shows it. */
  function Shown(b: Block, p: Dict, f: string): Json {
    if f in p then p[f] else if f in FlatFlags(b) then Get(DictOrEmpty(Get(p, "permissions")), f) else JNull
  }

  lemma ProjectShows(env: Env, b: Block, p: Dict, f: string)
    requires f in Compared(b)
    ensures Get(Project(env, b, p), f) == Shown(b, p, f)
  {
    hide GranteeOf;
    assert f !in {"grantee", "user_email", "team_uid_ref"};
  }

  /** Storing shows the same: the provider copies flags between the nested and the flat
      form, the flat one winning, as the projection does. */
  lemma StoringShows(env: Env, b: Block, p: Dict, text: string, f: string)
    requires f in Compared(b)
    ensures Shown(b, WithMarkerText(Normalise(env, ResourceOf(b), p), text), f) == Shown(b, p, f)
  {
    var mail := NormaliseEmail(env, p);
    assert (f in mail <==> f in p) && Get(mail, f) == Get(p, f) && Get(mail, "permissions") == Get(p, "permissions");
    if b == ShareFolder { SyncShows(mail, f); }
  }

  lemma SyncShows(p: Dict, f: string)
    requires f in Compared(ShareFolder)
    ensures Shown(ShareFolder, SyncPermissions(p), f) == Shown(ShareFolder, p, f)
  {}

  lemma UpdateShows(b: Block, p: Dict, after: Dict, f: string)
    requires f in Compared(b) && "permissions" !in after
    ensures Shown(b, p + after, f) == if f in after then after[f] else Shown(b, p, f)
  {}

  lemma ShownProjected(env: Env, b: Block, p: Dict, f: string)
    requires f in Compared(b)
    ensures Shown(b, Project(env, b, p), f) == Shown(b, p, f)
  {
    var q := Project(env, b, p);
    assert Get(q, "permissions") == Get(p, "permissions");
    ProjectShows(env, b, p, f);
  }
}
