/**
 * The two processes record the same prefix command differently: the record the
 * web process's `on_command` builds keeps the whole message text and an
 * id-qualified user label, while the bot process keeps only the first word after
 * the prefix and `name#discriminator`.
 */
module LogFormats {
  import opened Records
  import CommandLog
  import PrefixCommands

  /**
   * For a person's message `!` + `rest` whose first word is `w`, the record
   * `on_command` builds for it, if it reaches that handler, holds the command
   * `!` + `rest` under `name#discriminator (ID:id)`, and the bot
   * process posts the command `w` under `name#discriminator`, a prefix of the
   * former label.
   */
  lemma PrefixCommandRecords(a: Author, rest: string, i: nat, w: string, now: string)
    requires !a.bot && PrefixCommands.FirstWordAt(rest, i, w)
    ensures var content := PrefixCommands.Prefix + rest;
      var api := CommandLog.CommandEntry(a, content, now);
      var bot := PrefixCommands.OnMessage(PrefixCommands.Message(a, content));
      bot.Success? && bot.value.Some? &&
      api.command == content &&
      PrefixCommands.SendLog(bot.value.value, now).command == w &&
      api.user[..|PrefixCommands.SendLog(bot.value.value, now).user|] == PrefixCommands.SendLog(bot.value.value, now).user
  {
    PrefixCommands.PrefixMessageLogsFirstWord(a, rest, i, w);
    CommandLog.ApiUserExtendsTag(a);
  }
}
