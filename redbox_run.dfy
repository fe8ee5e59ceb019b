/**
 * The legacy Redbox Docker `run` command: the choice of console image from
 * the `--debug` and `--use-debian` options, and the image reference handed
 * to `docker run`.
 */
module RedboxRun {
  import opened Php

  /** The console image repository. */
  const REPOSITORY := "redboxdigital/docker-console"

  /**
   * getTag($debug, $debian). Despite its name it yields a whole image
   * reference: the repository, then the PHP 7.0 tag with `-xdebug` when
   * debugging and `-debian` when Debian is asked for.
   */
  function GetTag(debug: bool, debian: bool): string {
    if debug && debian then "redboxdigital/docker-console:7.0-xdebug-debian"
    else if debug then "redboxdigital/docker-console:7.0-xdebug"
    else if debian then "redboxdigital/docker-console:7.0-debian"
    else "redboxdigital/docker-console:7.0"
  }

  /** Every image getTag chooses is the repository's PHP 7.0 console image. */
  lemma GetTagBase(debug: bool, debian: bool)
    ensures REPOSITORY + ":7.0" <= GetTag(debug, debian)
  {
  }

  /** getTag chooses an Xdebug image exactly when debugging. */
  lemma GetTagDebug(debug: bool, debian: bool)
    ensures (REPOSITORY + ":7.0-xdebug" <= GetTag(debug, debian)) <==> debug
  {
    if !debug && debian {
      DifferAt(REPOSITORY + ":7.0-xdebug", GetTag(debug, debian), 34);
    }
  }

  /** getTag chooses a Debian image exactly when Debian is asked for. */
  lemma GetTagDebian(debug: bool, debian: bool)
    ensures EndsWith(GetTag(debug, debian), "-debian") <==> debian
  {
  }

  /** The four images, one per combination of the two options. */
  lemma GetTagValues()
    ensures GetTag(true, true) == "redboxdigital/docker-console:7.0-xdebug-debian"
    ensures GetTag(true, false) == "redboxdigital/docker-console:7.0-xdebug"
    ensures GetTag(false, true) == "redboxdigital/docker-console:7.0-debian"
    ensures GetTag(false, false) == "redboxdigital/docker-console:7.0"
  {
  }

  /** A character allowed in a Docker image tag. */
  predicate IsTagChar(c: char) {
    'a' <= c <= 'z' || 'A' <= c <= 'Z' || '0' <= c <= '9' || c == '_' || c == '.' || c == '-'
  }

  /** A Docker image tag: 1 to 128 tag characters, not starting with '.' or '-'. */
  predicate IsTag(t: string) {
    && 0 < |t| <= 128
    && t[0] != '.' && t[0] != '-'
    && forall i :: 0 <= i < |t| ==> IsTagChar(t[i])
  }

  /** `s` names a tag of the console repository: `redboxdigital/docker-console:<tag>`. */
  predicate IsConsoleImage(s: string) {
    && REPOSITORY + ":" <= s
    && IsTag(s[|REPOSITORY| + 1..])
  }

  /** `$image = "redboxdigital/docker-console:{$tag}"`, as the command builds it. */
  function ImageAsWritten(debug: bool, debian: bool): string {
    REPOSITORY + ":" + GetTag(debug, debian)
  }

  /**
   * The image the command runs repeats the repository: what follows the
   * first ':' is itself `redboxdigital/docker-console:7.0…`, which is not a
   * tag, so the reference does not name a console image.
   */
  lemma ImageAsWrittenRepeatsRepository(debug: bool, debian: bool)
    ensures REPOSITORY + ":" + REPOSITORY + ":7.0" <= ImageAsWritten(debug, debian)
    ensures !IsConsoleImage(ImageAsWritten(debug, debian))
  {
    var s := ImageAsWritten(debug, debian);
    var tag := GetTag(debug, debian);
    assert s == REPOSITORY + ":" + tag;
    assert s[|REPOSITORY| + 1..] == tag;
    assert tag[13] == '/';
  }

  /**
   * The image the command evidently means to run: getTag's value already
   * is the full reference, so it is used as it is. It always names a console
   * image of PHP 7.0, with `-xdebug` exactly when debugging and `-debian`
   * exactly when Debian is asked for.
   */
  function Image(debug: bool, debian: bool): (r: string)
    ensures IsConsoleImage(r)
    ensures REPOSITORY + ":7.0" <= r
    ensures (REPOSITORY + ":7.0-xdebug" <= r) <==> debug
    ensures EndsWith(r, "-debian") <==> debian
  {
    GetTagIsConsoleImage(debug, debian);
    GetTagBase(debug, debian);
    GetTagDebug(debug, debian);
    GetTagDebian(debug, debian);
    GetTag(debug, debian)
  }

  /** getTag's value, taken as it is, names a tag of the console repository. */
  lemma GetTagIsConsoleImage(debug: bool, debian: bool)
    ensures IsConsoleImage(GetTag(debug, debian))
  {
    ConsoleImage(GetTag(debug, debian));
  }

  /** A literal of getTag, checked on its own. */
  lemma ConsoleImage(s: string)
    requires s in {"redboxdigital/docker-console:7.0-xdebug-debian", "redboxdigital/docker-console:7.0-xdebug",
                   "redboxdigital/docker-console:7.0-debian", "redboxdigital/docker-console:7.0"}
    ensures IsConsoleImage(s)
  {
  }
}
