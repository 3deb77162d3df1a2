/** Display helpers for a movie (src/lib/utils/movie.ts). */
module MovieUtils {
  import opened Wrappers
  import opened Decimal
  import opened MovieTypes
  import Api
  import JsString

  const PlaceholderPoster := "/placeholder-poster.png"
  const Unknown := "Unknown"

  /**
   * buildPosterUrl: the image URL for a truthy poster path, the placeholder
   * for a null, undefined or empty one. `size` is the poster-size segment.
   */
  function BuildPosterUrl(posterPath: Option<string>, size: string): (url: string)
    ensures Api.IsTruthy(posterPath) ==> url == Api.ImageBaseUrl + "/" + size + posterPath.value
    ensures url == PlaceholderPoster <==> !Api.IsTruthy(posterPath)
  {
    if Api.IsTruthy(posterPath) then
      var url := Api.ImageBaseUrl + "/" + size + posterPath.value;
      assert url[0] == 'h' != PlaceholderPoster[0];
      url
    else PlaceholderPoster
  }

  /** A truthy poster URL starts with the image base and ends with the poster path. */
  lemma PosterUrlFramesPath(posterPath: string, size: string)
    requires posterPath != ""
    ensures var url := BuildPosterUrl(Some(posterPath), size);
      Api.ImageBaseUrl + "/" <= url && url[|url| - |posterPath|..] == posterPath
  {
  }

  /** `movie?.spoken_languages?.length` is truthy. */
  predicate HasSpokenLanguages(movie: Option<MovieDetails>)
  {
    movie.Some? && movie.value.spokenLanguages.Some? && |movie.value.spokenLanguages.value| > 0
  }

  /** getPrimaryLanguage: the English name of the first spoken language, else "Unknown". */
  function GetPrimaryLanguage(movie: Option<MovieDetails>): (language: string)
    ensures HasSpokenLanguages(movie) ==> language == movie.value.spokenLanguages.value[0].englishName
    ensures !HasSpokenLanguages(movie) ==> language == Unknown
  {
    if HasSpokenLanguages(movie) then movie.value.spokenLanguages.value[0].englishName else Unknown
  }

  /** JavaScript's `a % b`: the remainder takes the sign of the dividend. */
  function JsRemainder(a: int, b: int): int
    requires b > 0
  {
    if a >= 0 then a % b else -((-a) % b)
  }

  /**
   * formatRuntime: "Unknown" for 0, null or undefined; otherwise
   * "{hours}h {mins}m" with hours = Math.floor(minutes / 60) and
   * mins = minutes % 60. Dafny's `/` with a positive divisor is floor
   * division, as Math.floor of the quotient is.
   */
  function FormatRuntime(minutes: Option<int>): (text: string)
    ensures text == Unknown <==> minutes.None? || minutes.value == 0
  {
    if minutes.None? || minutes.value == 0 then Unknown
    else
      var m := minutes.value;
      var text := IntToString(m / 60) + "h " + IntToString(JsRemainder(m, 60)) + "m";
      assert text[|text| - 1] == 'm' != Unknown[|Unknown| - 1];
      text
  }

  /** A number part without zero padding: longer than one character, it starts with neither "0" nor "-0". */
  predicate Unpadded(t: string)
  {
    |t| <= 1 || (t[0] != '0' && !(t[0] == '-' && t[1] == '0'))
  }

  /** Reads "{h}h {r}m" back as h * 60 + r, accepting only unpadded parts and 0 <= r < 60. */
  function ParseRuntime(text: string): Option<int>
  {
    var k := JsString.FirstIndexOf(text, 'h');
    if k + 3 <= |text| && text[k + 1] == ' ' && text[|text| - 1] == 'm' then
      var hours, mins := text[..k], text[k + 2..|text| - 1];
      if Unpadded(hours) && Unpadded(mins) then
        match (ParseInt(hours), ParseInt(mins))
        case (Some(h), Some(r)) => if 0 <= r < 60 then Some(h * 60 + r) else None
        case _ => None
      else None
    else None
  }

  /** For a positive runtime the text names whole hours and 0..59 leftover minutes that add up to it. */
  lemma {:induction false} FormatRuntimeRoundTrip(m: int)
    requires m > 0
    ensures ParseRuntime(FormatRuntime(Some(m))) == Some(m)
  {
    var hs, rs := IntToString(m / 60), IntToString(m % 60);
    assert FormatRuntime(Some(m)) == hs + "h " + rs + "m";
    assert Unpadded(hs) && Unpadded(rs);
    RuntimeTextSplits(hs, rs);
    ParseIntRoundTrip(m / 60);
    ParseIntRoundTrip(m % 60);
  }

  /**
   * Text built from a digit run hs splits back at its first 'h' into hs and
   * the minutes part rs, and is read only when neither part is padded.
   */
  lemma {:induction false} RuntimeTextSplits(hs: string, rs: string)
    requires forall i | 0 <= i < |hs| :: IsDigit(hs[i])
    ensures var text := hs + "h " + rs + "m";
      ParseRuntime(text) ==
        if !Unpadded(hs) || !Unpadded(rs) then None
        else
          match (ParseInt(hs), ParseInt(rs))
          case (Some(h), Some(r)) => if 0 <= r < 60 then Some(h * 60 + r) else None
          case _ => None
  {
    var text := hs + "h " + rs + "m";
    assert text[..|hs|] == hs;
    assert text[|hs|] == 'h';
    assert forall i | 0 <= i < |hs| :: text[i] != 'h' by {
      forall i | 0 <= i < |hs| ensures text[i] != 'h' {
        assert text[i] == hs[i] && IsDigit(hs[i]);
      }
    }
    assert JsString.FirstIndexOf(text, 'h') == |hs|;
    assert text[|hs| + 2..|text| - 1] == rs;
  }

  /** Minutes are not zero-padded. */
  lemma RuntimeExamples()
    ensures FormatRuntime(Some(65)) == "1h 5m"
    ensures FormatRuntime(Some(120)) == "2h 0m"
    ensures FormatRuntime(None) == "Unknown"
  {
  }

  /** Zero-padded parts are not runtime text: "01h 5m", "1h 05m" and "1h -0m" all read as nothing. */
  lemma {:induction false} PaddedRuntimeIsRejected(hs: string, rs: string)
    requires forall i | 0 <= i < |hs| :: IsDigit(hs[i])
    requires !Unpadded(hs) || !Unpadded(rs)
    ensures ParseRuntime(hs + "h " + rs + "m") == None
  {
    RuntimeTextSplits(hs, rs);
  }

  /** A negative runtime mixes floor division with a truncated remainder. */
  lemma NegativeRuntimeExample()
    ensures FormatRuntime(Some(-5)) == "-1h -5m"
  {
  }
}
