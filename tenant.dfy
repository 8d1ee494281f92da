/**
 * Tenant resolution (bot.py:70, 116 and every handler): a community's storage
 * namespace is its name with spaces turned into underscores, lower-cased.
 */
module Tenant {
  import opened Text

  /** `interaction.guild.name.replace(" ", "_").lower()`. */
  function TenantKey(name: string): (key: string)
    ensures |key| == |name|
    ensures ' ' !in key
    ensures forall i :: 0 <= i < |key| ==> !IsUpper(key[i])
    ensures forall i :: 0 <= i < |name| && name[i] == ' ' ==> key[i] == '_'
    ensures forall i :: 0 <= i < |name| && IsUpper(name[i]) ==> key[i] == LowerChar(name[i]) && key[i] as int == name[i] as int + 32
    ensures forall i :: 0 <= i < |name| && name[i] != ' ' && !IsUpper(name[i]) ==> key[i] == name[i]
  {
    var key := Lower(ReplaceChar(name, ' ', '_'));
    assert forall i :: 0 <= i < |key| ==> key[i] != ' ' by {
      forall i | 0 <= i < |key| ensures key[i] != ' ' {
        assert ReplaceChar(name, ' ', '_')[i] != ' ';
      }
    }
    key
  }

  /** A key is already normalised: resolving it again names the same namespace. */
  lemma TenantKeyIdempotent(name: string)
    ensures TenantKey(TenantKey(name)) == TenantKey(name)
  {
    var k := TenantKey(name);
    assert forall i :: 0 <= i < |k| ==> TenantKey(k)[i] == k[i];
  }

  /** Names that differ only in letter case or in spaces versus underscores share a namespace. */
  lemma TenantKeyCollision()
    ensures TenantKey("Spring Cup") == TenantKey("spring_cup")
  {
    assert TenantKey("Spring Cup") == "spring_cup";
    assert TenantKey("spring_cup") == "spring_cup";
  }
}
