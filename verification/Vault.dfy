/** Authenticated encryption, symbolically: a ciphertext opens exactly under the context string it was made with.
    One server secret is fixed, so it does not appear. */
module Vault {
  import opened Basics

  datatype Cipher = Cipher(plain: string, context: string)

  function Seal(plain: string, context: string): Cipher {
    Cipher(plain, context)
  }

  function Unseal(c: Cipher, context: string): Option<string> {
    if c.context == context then Some(c.plain) else None
  }

  function SettingsContext(uid: string): string { "user_llm_settings:" + uid }

  function ProviderContext(uid: string): string { "user_api_provider:" + uid }

  function SnapshotContext(job: string): string { "job_api_provider:" + job }

  function LegacyContext(job: string): string { "job_llm_snapshot:" + job }

  /** Re-encrypt an optional key; None as outer result means the stored key would not open. */
  function Reseal(key: Option<Cipher>, from: string, to: string): Option<Option<Cipher>> {
    match key
    case None => Some(None)
    case Some(c) =>
      match Unseal(c, from)
      case None => None
      case Some(plain) => Some(Some(Seal(plain, to)))
  }

  predicate Under(key: Option<Cipher>, context: string) {
    key.Some? ==> key.value.context == context
  }

  /** The key of the provider row that replaces a user's old single-provider settings: a key that does
      not open is dropped, never copied. */
  function MigratedKey(stored: Option<Cipher>, uid: string): (r: Option<Cipher>)
    ensures Under(r, ProviderContext(uid))
    ensures r.Some? <==> stored.Some? && stored.value.context == SettingsContext(uid)
    ensures r.Some? ==> Unseal(r.value, ProviderContext(uid)) == Unseal(stored.value, SettingsContext(uid))
  {
    match Reseal(stored, SettingsContext(uid), ProviderContext(uid))
    case None => None
    case Some(key) => key
  }

  /** No context string of one table is one of another, whatever the ids. */
  lemma ContextsDiffer(uid: string, other: string, job: string, job': string)
    ensures SettingsContext(uid) != ProviderContext(other)
    ensures SnapshotContext(job) != LegacyContext(job')
    ensures SettingsContext(uid) != SnapshotContext(job) && SettingsContext(uid) != LegacyContext(job)
    ensures ProviderContext(uid) != SnapshotContext(job) && ProviderContext(uid) != LegacyContext(job)
  {
    assert SettingsContext(uid)[5] == 'l' && ProviderContext(other)[5] == 'a';
    assert SnapshotContext(job)[4] == 'a' && LegacyContext(job')[4] == 'l' && LegacyContext(job)[0] == 'j';
    assert SettingsContext(uid)[0] == 'u' && ProviderContext(uid)[0] == 'u' && SnapshotContext(job)[0] == 'j';
  }
}
