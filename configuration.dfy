/**
 * The configuration merge of `config_edit` (bot.py:169-190): only the fields that were
 * supplied are written. Role and channel arguments are objects, so a supplied one is
 * always truthy; the logo is a string and is written only when it is not empty.
 */
module Configuration {
  import opened Wrappers
  import opened Text
  import opened Records

  /** `update_data` is empty: nothing was supplied (bot.py:189, 194). */
  predicate IsEmptyPatch(p: ConfigPatch) {
    && p.botOpRole.None? && p.judgeRole.None? && p.recorderRole.None?
    && p.scheduleChannel.None? && p.resultsChannel.None? && p.notificationChannel.None?
    && p.transcriptChannel.None? && p.thumbnailChannel.None? && !Truthy(p.tourLogo)
  }

  /** The stored configuration after `$set: update_data`. */
  function ApplyPatch(c: Config, p: ConfigPatch): Config {
    Config(
      p.botOpRole.GetOr(c.botOpRole),
      p.judgeRole.GetOr(c.judgeRole),
      p.recorderRole.GetOr(c.recorderRole),
      p.scheduleChannel.GetOr(c.scheduleChannel),
      p.resultsChannel.GetOr(c.resultsChannel),
      p.notificationChannel.GetOr(c.notificationChannel),
      p.transcriptChannel.GetOr(c.transcriptChannel),
      p.thumbnailChannel.GetOr(c.thumbnailChannel),
      OrElse(p.tourLogo, c.tourLogo))
  }

  /** The patch that supplies every field of `c`, as `config_set` does. */
  function FullPatch(c: Config): ConfigPatch {
    ConfigPatch(Some(c.botOpRole), Some(c.judgeRole), Some(c.recorderRole),
                Some(c.scheduleChannel), Some(c.resultsChannel), Some(c.notificationChannel),
                Some(c.transcriptChannel), Some(c.thumbnailChannel), Some(c.tourLogo))
  }

  /** Editing with nothing supplied leaves the configuration as it was. */
  lemma EmptyPatchKeeps(c: Config, p: ConfigPatch)
    requires IsEmptyPatch(p)
    ensures ApplyPatch(c, p) == c
  {
  }

  /** Applying the same edit twice is the same as applying it once. */
  lemma ApplyPatchIdempotent(c: Config, p: ConfigPatch)
    ensures ApplyPatch(ApplyPatch(c, p), p) == ApplyPatch(c, p)
  {
  }

  /** A full patch with a non-empty logo replaces the whole configuration, as the upsert of `config_set` does. */
  lemma FullPatchReplaces(stored: Config, c: Config)
    requires c.tourLogo != ""
    ensures ApplyPatch(stored, FullPatch(c)) == c
  {
  }
}
