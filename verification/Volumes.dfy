/** Volume bindings, host:container[:ro|rw], where the host path may itself hold colons. */
module Volumes {
  import opened Text
  import opened Wrappers

  datatype Binding = Binding(host: string, container: string, mode: string)

  predicate IsMode(s: string) { s == "ro" || s == "rw" }

  function Front(parts: seq<string>): seq<string>
    requires parts != []
  {
    parts[..|parts| - 1]
  }

  /** The adapter's reading of a binding. */
  function SplitVolumeBinding(binding: string): Option<Binding> {
    var all := Split(binding, ':');
    if |all| < 2 then None
    else
      var hasMode := IsMode(Trim(Last(all)));
      var mode := if hasMode then Trim(Last(all)) else "";
      var parts := if hasMode then Front(all) else all;
      if |parts| < 2 then None
      else
        var container := Trim(Last(parts));
        var host := Trim(Join(Front(parts), ':'));
        if host == "" || container == "" then None else Some(Binding(host, container, mode))
  }

  function JoinVolumeBinding(host: string, container: string, mode: string): string {
    if Trim(mode) == "" then Trim(host) + ":" + Trim(container)
    else Trim(host) + ":" + Trim(container) + ":" + Trim(mode)
  }

  /** What a template must satisfy to be stored. The mode is compared untrimmed here, unlike
      in the adapter. */
  predicate ValidateVolume(item: string) {
    var all := Split(item, ':');
    && |all| >= 2
    && var hasMode := IsMode(Last(all));
       var parts := if hasMode then Front(all) else all;
       var container := Trim(Last(parts));
       var host := Trim(Join(Front(parts), ':'));
       host != "" && container != "" && container[0] == '/'
  }

  lemma SplitTwice(a: string, b: string, sep: char)
    requires sep !in b
    ensures Split(a + [sep] + b, sep) == Split(a, sep) + [b]
  {
    SplitAtSeparator(a, sep, b);
    SplitWithoutSeparator(b, sep);
  }

  lemma HostPathRestored(host: string)
    ensures Join(Split(host, ':'), ':') == host
  {
    JoinSplit(host, ':');
  }

  /** What reading back a joined binding gives when the container path holds no colon. */
  lemma SplitJoined(host: string, container: string, mode: string)
    requires Trimmed(host) && Trimmed(container) && host != "" && container != ""
    requires ':' !in container && (mode == "" || IsMode(mode))
    requires mode != "" || !IsMode(container)
    ensures SplitVolumeBinding(JoinVolumeBinding(host, container, mode)) == Some(Binding(host, container, mode))
  {
    var pair := host + [':'] + container;
    SplitTwice(host, container, ':');
    HostPathRestored(host);
    assert Front(Split(host, ':') + [container]) == Split(host, ':');
    if mode != "" {
      assert Trim(mode) == mode && ':' !in mode;
      SplitTwice(pair, mode, ':');
      assert JoinVolumeBinding(host, container, mode) == pair + [':'] + mode;
      assert Front(Split(pair, ':') + [mode]) == Split(pair, ':');
    } else {
      assert JoinVolumeBinding(host, container, mode) == pair;
    }
  }

  /** A container path the reader returns never holds a colon. */
  lemma ReadContainerHasNoColon(binding: string)
    requires SplitVolumeBinding(binding).Some?
    ensures ':' !in SplitVolumeBinding(binding).value.container
  {
    var all := Split(binding, ':');
    var parts := if IsMode(Trim(Last(all))) then Front(all) else all;
    assert Last(parts) in all;
    TrimIsSubtext(Last(parts));
  }

  lemma TrimIsSubtext(s: string)
    ensures forall c :: c in Trim(s) ==> c in s
  {
    TrimLeftIsSubtext(s);
    TrimRightIsSubtext(TrimLeft(s));
  }

  lemma TrimLeftIsSubtext(s: string)
    ensures forall c :: c in TrimLeft(s) ==> c in s
  {
    if s != "" && IsSpace(s[0]) {
      TrimLeftIsSubtext(s[1..]);
    }
  }

  lemma TrimRightIsSubtext(s: string)
    ensures forall c :: c in TrimRight(s) ==> c in s
  {
    if s != "" && IsSpace(s[|s| - 1]) {
      TrimRightIsSubtext(s[..|s| - 1]);
    }
  }

  /** Joining and splitting is a round trip for every host path, colons included, exactly when
      the container path holds no colon and cannot be mistaken for a missing mode. */
  lemma RoundTripIff(host: string, container: string, mode: string)
    requires Trimmed(host) && Trimmed(container) && host != "" && container != ""
    requires mode == "" || IsMode(mode)
    ensures SplitVolumeBinding(JoinVolumeBinding(host, container, mode)) == Some(Binding(host, container, mode))
       <==> ':' !in container && (mode != "" || !IsMode(container))
  {
    var joined := JoinVolumeBinding(host, container, mode);
    if ':' in container {
      if SplitVolumeBinding(joined).Some? {
        ReadContainerHasNoColon(joined);
      }
    } else if mode == "" && IsMode(container) {
      SplitTwice(host, container, ':');
      assert joined == host + [':'] + container;
      assert Last(Split(joined, ':')) == container;
    } else {
      SplitJoined(host, container, mode);
    }
  }

  /** Every volume a template may store splits, into the validator's own host path and an
      absolute container path. */
  lemma ValidatedVolumeSplits(item: string)
    requires ValidateVolume(item)
    ensures SplitVolumeBinding(item).Some?
    ensures var b := SplitVolumeBinding(item).value;
            var all := Split(item, ':');
            var kept := if IsMode(Last(all)) then Front(all) else all;
            && b.container[..1] == "/" && b.container == Trim(Last(kept))
            && b.host == Trim(Join(Front(kept), ':'))
            && b.mode == (if IsMode(Last(all)) then Last(all) else "")
  {
    ModesAgree(item);
  }

  /** On a stored volume it makes no difference that only the adapter trims the mode. */
  lemma ModesAgree(item: string)
    requires ValidateVolume(item)
    ensures IsMode(Trim(Last(Split(item, ':')))) <==> IsMode(Last(Split(item, ':')))
    ensures IsMode(Last(Split(item, ':'))) ==> Trim(Last(Split(item, ':'))) == Last(Split(item, ':'))
  {
  }

  /** What the adapter sends docker for a stored volume reads back as the same binding. */
  lemma ValidatedVolumeSurvivesNormalisation(item: string)
    requires ValidateVolume(item)
    ensures SplitVolumeBinding(item).Some?
    ensures var b := SplitVolumeBinding(item).value;
            SplitVolumeBinding(JoinVolumeBinding(b.host, b.container, b.mode)) == Some(b)
  {
    ValidatedVolumeSplits(item);
    ReadContainerHasNoColon(item);
    var b := SplitVolumeBinding(item).value;
    SplitJoined(b.host, b.container, b.mode);
  }

  /** A host path and an absolute container path make a volume a template may store. */
  lemma AbsoluteVolumeIsAccepted(host: string, container: string)
    requires ':' !in host && ':' !in container && Trim(host) != ""
    requires Trim(container) != "" && Trim(container)[0] == '/'
    ensures ValidateVolume(host + [':'] + container)
  {
    SplitWithoutSeparator(host, ':');
    SplitTwice(host, container, ':');
    assert Trim("ro") == "ro" && Trim("rw") == "rw";
    assert [host] + [container] == [host, container] && Front([host, container]) == [host];
  }

  /** A mode behind it is accepted too. */
  lemma VolumeWithModeIsAccepted(host: string, container: string, mode: string)
    requires ':' !in host && ':' !in container && Trim(host) != "" && IsMode(mode)
    requires Trim(container) != "" && Trim(container)[0] == '/'
    ensures ValidateVolume(host + [':'] + container + [':'] + mode)
  {
    SplitWithoutSeparator(host, ':');
    SplitTwice(host, container, ':');
    SplitTwice(host + [':'] + container, mode, ':');
    assert Front([host, container] + [mode]) == [host, container] && Front([host, container]) == [host];
  }
}
