// validate_config (backend/aurora_twilio.py, and the identical copy in
// aurora_livekit.py): the four settings the telephony server needs, read
// from the environment, and the list of the missing ones it reports.

module ConfigCheck {
  import opened Optional
  import opened PyText

  /** The environment values read into the Config class; None when unset. */
  datatype Settings = Settings(cerebrasApiKey: Option<string>, twilioAccountSid: Option<string>,
                               twilioAuthToken: Option<string>, twilioPhoneNumber: Option<string>)

  /** The required names, in the order they are checked and reported. */
  const Required: seq<string> := ["CEREBRAS_API_KEY", "TWILIO_ACCOUNT_SID", "TWILIO_AUTH_TOKEN", "TWILIO_PHONE_NUMBER"]

  function Values(cfg: Settings): (v: seq<Option<string>>)
    ensures |v| == |Required|
  {
    [cfg.cerebrasApiKey, cfg.twilioAccountSid, cfg.twilioAuthToken, cfg.twilioPhoneNumber]
  }

  /** The names among the first k required ones whose setting is unset or
      empty, in order. */
  function AbsentUpTo(cfg: Settings, k: nat): seq<string>
    requires k <= |Required|
  {
    if k == 0 then []
    else AbsentUpTo(cfg, k - 1) + (if Truthy(Values(cfg)[k - 1]) then [] else [Required[k - 1]])
  }

  function Absent(cfg: Settings): seq<string> {
    AbsentUpTo(cfg, |Required|)
  }

  /** The place of a required name in the checking order. */
  function Position(name: string): nat {
    if name == Required[0] then 0
    else if name == Required[1] then 1
    else if name == Required[2] then 2
    else 3
  }

  /** A name is reported exactly when its setting is unset or empty, and
      only required names are reported. */
  lemma {:induction false} AbsentExactly(cfg: Settings, k: nat)
    requires k <= |Required|
    ensures forall i :: 0 <= i < k ==> (Required[i] in AbsentUpTo(cfg, k) <==> !Truthy(Values(cfg)[i]))
    ensures forall n :: n in AbsentUpTo(cfg, k) ==> n in Required[..k]
  {
    if k > 0 {
      AbsentExactly(cfg, k - 1);
      assert Required[..k] == Required[..k - 1] + [Required[k - 1]];
    }
  }

  /** The report keeps the checking order, each name at most once. */
  lemma {:induction false} AbsentInOrder(cfg: Settings, k: nat)
    requires k <= |Required|
    ensures var m := AbsentUpTo(cfg, k);
            |m| <= k && InCheckingOrder(m)
    ensures forall n :: n in AbsentUpTo(cfg, k) ==> Position(n) < k
  {
    if k > 0 {
      var m := AbsentUpTo(cfg, k - 1);
      AbsentInOrder(cfg, k - 1);
      assert forall n :: n in m ==> Position(n) < k - 1 by {
        AbsentExactly(cfg, k - 1);
        PrefixPositions(k - 1);
      }
      if !Truthy(Values(cfg)[k - 1]) {
        PositionOfRequired(k - 1);
        AppendKeepsOrder(m, Required[k - 1]);
      }
    }
  }

  predicate InCheckingOrder(m: seq<string>) {
    forall a, b :: 0 <= a < b < |m| ==> Position(m[a]) < Position(m[b])
  }

  lemma AppendKeepsOrder(m: seq<string>, x: string)
    requires InCheckingOrder(m) && forall n :: n in m ==> Position(n) < Position(x)
    ensures InCheckingOrder(m + [x])
  {
    var m2 := m + [x];
    forall a, b | 0 <= a < b < |m2| ensures Position(m2[a]) < Position(m2[b]) {
      assert m2[a] == m[a] && m[a] in m;
      if b < |m| {
        assert m2[b] == m[b];
      }
    }
  }

  lemma PositionOfRequired(i: nat)
    requires i < |Required|
    ensures Position(Required[i]) == i
  {
  }

  lemma PrefixPositions(k: nat)
    requires k <= |Required|
    ensures forall n :: n in Required[..k] ==> Position(n) < k
  {
    forall n | n in Required[..k] ensures Position(n) < k {
      var i :| 0 <= i < k && Required[..k][i] == n;
      PositionOfRequired(i);
    }
  }

  /** The configuration is accepted exactly when nothing is missing, that is
      when all four settings are set and non-empty. */
  lemma ValidIffAllSet(cfg: Settings)
    ensures Absent(cfg) == [] <==> forall i :: 0 <= i < |Required| ==> Truthy(Values(cfg)[i])
  {
    AbsentExactly(cfg, |Required|);
    if Absent(cfg) != [] {
      assert Absent(cfg)[0] in Required[..|Required|];
    }
  }

  /** With no settings at all, all four names are reported in order. */
  lemma NothingSet()
    ensures Absent(Settings(None, None, None, None)) == Required
  {
    var cfg := Settings(None, None, None, None);
    assert AbsentUpTo(cfg, 1) == Required[..1];
    assert AbsentUpTo(cfg, 2) == Required[..2];
    assert AbsentUpTo(cfg, 3) == Required[..3];
  }

  /** validate_config: the missing names, and whether there are none. */
  method ValidateConfig(cfg: Settings) returns (ok: bool, missing: seq<string>)
    ensures missing == Absent(cfg)
    ensures ok <==> forall i :: 0 <= i < |Required| ==> Truthy(Values(cfg)[i])
    ensures ok <==> missing == []
  {
    missing := [];
    if !Truthy(cfg.cerebrasApiKey) {
      missing := missing + ["CEREBRAS_API_KEY"];
    }
    assert missing == AbsentUpTo(cfg, 1);
    if !Truthy(cfg.twilioAccountSid) {
      missing := missing + ["TWILIO_ACCOUNT_SID"];
    }
    assert missing == AbsentUpTo(cfg, 2);
    if !Truthy(cfg.twilioAuthToken) {
      missing := missing + ["TWILIO_AUTH_TOKEN"];
    }
    assert missing == AbsentUpTo(cfg, 3);
    if !Truthy(cfg.twilioPhoneNumber) {
      missing := missing + ["TWILIO_PHONE_NUMBER"];
    }
    assert missing == AbsentUpTo(cfg, 4);
    ok := missing == [];
    ValidIffAllSet(cfg);
  }
}
