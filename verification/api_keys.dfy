/** The API-key registry of the data-collection screen: generating a key from a name and a random
    suffix, switching a key on or off, deleting it, and the permission check boxes of the draft. */
module ApiKeys {
  import opened Common
  import Text
  import Seqs

  datatype Permission = Read | Write | Delete
  datatype KeyStatus = Active | Inactive

  datatype ApiKey = ApiKey(
    id: string,
    name: string,
    key: string,
    status: KeyStatus,
    created: string,
    lastUsed: Option<string>,
    permissions: seq<Permission>)

  /** The key shown once after generation. */
  datatype Generated = Generated(name: string, key: string)

  /** The state of the key panel: the registry, the draft of a new key and the dialog flags. */
  datatype Panel = Panel(
    keys: seq<ApiKey>,
    newKeyName: string,
    newKeyPermissions: seq<Permission>,
    showNewKeyForm: bool,
    generatedKey: Option<Generated>)

  function SampleKeys(): seq<ApiKey>
  {
    [ ApiKey("1", "福建省级平台同步", "fj_carbon_bbbf7ac8d0e6cb4", Active, "2023-05-10",
             Some("2023-06-21 14:30"), [Read, Write]),
      ApiKey("2", "福州市数据中心", "fz_center_e91c5fb49d78aa2", Active, "2023-04-22",
             Some("2023-06-15 09:45"), [Read]),
      ApiKey("3", "测试环境", "test_env_57a9132c6d8fb04", Inactive, "2023-03-18",
             None, [Read, Write, Delete]) ]
  }

  function InitialPanel(): (p: Panel)
    ensures p.keys == SampleKeys() && p.newKeyName == [] && p.newKeyPermissions == [Read]
    ensures !p.showNewKeyForm && p.generatedKey.None?
  {
    Panel(SampleKeys(), "", [Read], false, None)
  }

  // ---------------------------------------------------------------------------------------------
  // Key generation
  // ---------------------------------------------------------------------------------------------

  const Alphabet: string := "abcdefghijklmnopqrstuvwxyz0123456789"

  /** A character of the random part of a key: a lower-case Latin letter or a decimal digit. */
  predicate IsKeyChar(c: char)
  {
    'a' <= c <= 'z' || '0' <= c <= '9'
  }

  /** The sixteen draws `Math.floor(Math.random() * 36)`, each an index into the alphabet. */
  predicate ValidRolls(rolls: seq<nat>)
  {
    |rolls| == 16 && forall i :: 0 <= i < |rolls| ==> rolls[i] < |Alphabet|
  }

  function RandomSuffix(rolls: seq<nat>): (r: string)
    requires ValidRolls(rolls)
    ensures |r| == 16
    ensures forall i :: 0 <= i < |r| ==> IsKeyChar(r[i]) && r[i] == Alphabet[rolls[i]]
  {
    seq(16, i requires 0 <= i < 16 => Alphabet[rolls[i]])
  }

  /** The stored key: the lower-cased name with white-space runs turned into '_', then '_' and the suffix. */
  function FormatKey(name: string, suffix: string): (r: string)
    ensures |r| == |Text.ReplaceWhitespaceRuns(Text.ToLower(name), '_')| + 1 + |suffix|
  {
    Text.ReplaceWhitespaceRuns(Text.ToLower(name), '_') + "_" + suffix
  }

  /** `generateApiKey`: `now` is `Date.now()`, `today` the ISO date of the moment, `rolls` the random draws.
      A blank name is refused and nothing changes; otherwise exactly one active, never-used key with the
      draft's permissions is put in front of the unchanged registry, and the draft is reset. */
  function GenerateApiKey(p: Panel, rolls: seq<nat>, now: nat, today: string): (r: Panel)
    requires ValidRolls(rolls)
    ensures Text.IsBlank(p.newKeyName) ==> r == p
    ensures !Text.IsBlank(p.newKeyName) ==>
      && |r.keys| == |p.keys| + 1
      && r.keys[1..] == p.keys
      && r.keys[0].id == Text.NatToString(now)
      && r.keys[0].name == p.newKeyName
      && r.keys[0].status == Active
      && r.keys[0].created == today
      && r.keys[0].lastUsed == None
      && r.keys[0].permissions == p.newKeyPermissions
      && r.keys[0].key == FormatKey(p.newKeyName, RandomSuffix(rolls))
      && r.generatedKey == Some(Generated(p.newKeyName, r.keys[0].key))
      && r.newKeyName == [] && r.newKeyPermissions == [Read] && !r.showNewKeyForm
  {
    Text.TrimEmptyIffBlank(p.newKeyName);
    if Text.Trim(p.newKeyName) == [] then p
    else
      var key := FormatKey(p.newKeyName, RandomSuffix(rolls));
      var item := ApiKey(Text.NatToString(now), p.newKeyName, key, Active, today, None, p.newKeyPermissions);
      Panel([item] + p.keys, "", [Read], false, Some(Generated(p.newKeyName, key)))
  }

  /** The shape of a stored key: a white-space-free prefix derived from the name, '_', and the
      sixteen characters of the suffix, each from a-z or 0-9. */
  lemma FormatKeyShape(name: string, suffix: string)
    requires |suffix| == 16 && forall i :: 0 <= i < 16 ==> IsKeyChar(suffix[i])
    ensures var k := FormatKey(name, suffix);
            var prefix := Text.ReplaceWhitespaceRuns(Text.ToLower(name), '_');
            && |k| == |prefix| + 17
            && k[..|prefix|] == prefix
            && k[|prefix|] == '_'
            && k[|prefix| + 1..] == suffix
            && (forall i :: |prefix| < i < |k| ==> IsKeyChar(k[i]))
            && Text.NoWhitespace(k)
  {
    var prefix := Text.ReplaceWhitespaceRuns(Text.ToLower(name), '_');
    JoinShape(prefix, suffix);
  }

  lemma JoinShape(prefix: string, suffix: string)
    requires Text.NoWhitespace(prefix)
    requires forall i :: 0 <= i < |suffix| ==> IsKeyChar(suffix[i])
    ensures var k := prefix + "_" + suffix;
            && k[..|prefix|] == prefix
            && k[|prefix|] == '_'
            && k[|prefix| + 1..] == suffix
            && (forall i :: |prefix| < i < |k| ==> IsKeyChar(k[i]))
            && Text.NoWhitespace(k)
  {
    var k := prefix + "_" + suffix;
    forall i | |prefix| < i < |k| ensures IsKeyChar(k[i]) {
      assert k[i] == suffix[i - |prefix| - 1];
    }
    forall i | 0 <= i < |k| ensures !Text.IsWhitespace(k[i]) {
      if i < |prefix| {
        assert k[i] == prefix[i];
      } else if i > |prefix| {
        assert k[i] == suffix[i - |prefix| - 1];
      }
    }
  }

  /** Nothing stops a key with no permission at all from being generated. */
  lemma EmptyPermissionsAccepted(rolls: seq<nat>, now: nat, today: string)
    requires ValidRolls(rolls)
    ensures var p := Panel(SampleKeys(), "x", [], true, None);
            GenerateApiKey(p, rolls, now, today).keys[0].permissions == []
  {
    var p := Panel(SampleKeys(), "x", [], true, None);
    assert !Text.IsWhitespace(p.newKeyName[0]);
  }

  // ---------------------------------------------------------------------------------------------
  // Status, deletion and the permission check boxes
  // ---------------------------------------------------------------------------------------------

  function Flipped(s: KeyStatus): KeyStatus
  {
    if s == Active then Inactive else Active
  }

  /** `toggleKeyStatus`: every key with the id switches between active and inactive; all else stays. */
  function ToggleKeyStatus(keys: seq<ApiKey>, id: string): (r: seq<ApiKey>)
    ensures |r| == |keys|
    ensures forall i :: 0 <= i < |keys| ==> (r[i].status != keys[i].status <==> keys[i].id == id)
    ensures forall i :: 0 <= i < |keys| ==> r[i] == keys[i].(status := r[i].status)
  {
    Seqs.Map(keys, (k: ApiKey) => if k.id == id then k.(status := Flipped(k.status)) else k)
  }

  /** Switching the same key twice restores the registry. */
  lemma ToggleKeyStatusInvolution(keys: seq<ApiKey>, id: string)
    ensures ToggleKeyStatus(ToggleKeyStatus(keys, id), id) == keys
  {
    var r := ToggleKeyStatus(ToggleKeyStatus(keys, id), id);
    assert forall i :: 0 <= i < |keys| ==> r[i] == keys[i];
  }

  /** `deleteKey`: exactly the keys with another id are kept, in their order and multiplicity. */
  function DeleteKey(keys: seq<ApiKey>, id: string): (r: seq<ApiKey>)
    ensures forall k :: k in r <==> k in keys && k.id != id
    ensures Seqs.SubseqOf(r, keys)
    ensures forall k: ApiKey :: k.id != id ==> multiset(r)[k] == multiset(keys)[k]
  {
    var keep := (k: ApiKey) => k.id != id;
    Seqs.FilterIsSubseq(keys, keep);
    Seqs.FilterMultiset(keys, keep);
    Seqs.Filter(keys, keep)
  }

  /** `togglePermission`: a ticked permission is removed, an unticked one is appended at the end. */
  function TogglePermission(perms: seq<Permission>, q: Permission): (r: seq<Permission>)
    ensures q in r <==> q !in perms
    ensures forall x :: x != q ==> (x in r <==> x in perms)
    ensures q !in perms ==> r == perms + [q]
    ensures q in perms ==> Seqs.SubseqOf(r, perms)
    ensures Seqs.Distinct(perms) ==> Seqs.Distinct(r)
  {
    if q in perms then
      var keep := (x: Permission) => x != q;
      Seqs.FilterIsSubseq(perms, keep);
      Seqs.FilterDistinct(perms, keep);
      Seqs.Filter(perms, keep)
    else perms + [q]
  }

  /** Ticking a box twice leaves the same set of permissions, and starting from an unticked box
      even the same list. */
  lemma {:induction false} TogglePermissionTwice(perms: seq<Permission>, q: Permission)
    ensures forall x :: x in TogglePermission(TogglePermission(perms, q), q) <==> x in perms
    ensures q !in perms ==> TogglePermission(TogglePermission(perms, q), q) == perms
  {
    if q !in perms {
      var keep := (x: Permission) => x != q;
      Seqs.FilterConcat(perms, [q], keep);
      Seqs.FilterAll(perms, keep);
      assert Seqs.Filter([q], keep) == [] by {
        assert [q][1..] == [];
      }
    }
  }
}
