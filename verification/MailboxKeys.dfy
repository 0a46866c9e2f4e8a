// Mailbox keys: either a legacy qq_group:/qq_private: key with a decimal id, or
// platform:account:kind:external with non-empty parts.
module MailboxKeys {
  import opened Text

  predicate AllDigits(s: string) {
    |s| > 0 && forall i :: 0 <= i < |s| ==> '0' <= s[i] <= '9'
  }

  predicate IsMailboxKey(key: string) {
    var parts := SplitAt(key, ':');
    || (|parts| == 2 && parts[0] in {"qq_group", "qq_private"} && AllDigits(parts[1]))
    || (|parts| == 4 && parts[0] in {"qq", "feishu"} && parts[1] != ""
        && parts[2] in {"group", "private"} && parts[3] != "")
  }

  predicate IsPrivateMailbox(key: string) {
    "qq_private:" <= key || Occurs(key, ":private:")
  }
}
