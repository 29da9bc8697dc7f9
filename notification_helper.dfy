/**
 * The pure parts of the push-notification helper
 * (src/scripts/utils/notification-helper.js): turning the URL-safe,
 * unpadded VAPID public key into the bytes `pushManager.subscribe` needs,
 * and reporting the permission state.
 */
module NotificationHelper {
  import opened JsValues
  import opened Base64

  /** The application server key, in URL-safe base64 (section 5 of RFC 4648) without padding. */
  const VAPID_PUBLIC_KEY: string := "BN7-r0Svv7CxlXMC19FPeRVbc_f-d6qKbvj_JZRh8Y8La2ja04hmSD_oAyaGLFEcHyCCZCzFd4r0Uf8VqB5tXjU"

  /** `(4 - n % 4) % 4`: how many `=` complete `n` characters to a multiple of four. */
  function PaddingLength(n: nat): (p: nat)
    ensures p <= 3 && (n + p) % 4 == 0
    ensures n % 4 == 0 <==> p == 0
  {
    (4 - n % 4) % 4
  }

  /** `c.repeat(n)` */
  function Repeat(c: char, n: nat): (r: string)
    ensures |r| == n && forall i :: 0 <= i < n ==> r[i] == c
  {
    seq(n, _ => c)
  }

  /** `replace(/-/g, '+').replace(/_/g, '/')` on one character. */
  function StandardChar(c: char): char {
    if c == '-' then '+' else if c == '_' then '/' else c
  }

  /** Both global replacements: URL-safe alphabet to the standard one. */
  function ToStandardAlphabet(s: string): (r: string)
    ensures |r| == |s| && forall i :: 0 <= i < |s| ==> r[i] == StandardChar(s[i])
    ensures '-' !in r && '_' !in r
  {
    seq(|s|, i requires 0 <= i < |s| => StandardChar(s[i]))
  }

  /** The string handed to `atob`: padded, then in the standard alphabet. */
  function PaddedStandard(base64String: string): (r: string)
    ensures |r| % 4 == 0 && |r| == |base64String| + PaddingLength(|base64String|)
  {
    ToStandardAlphabet(base64String + Repeat('=', PaddingLength(|base64String|)))
  }

  /** The bytes `_urlBase64ToUint8Array` returns; `None` where `atob` throws. */
  function DecodeUrlBase64(base64String: string): Option<seq<byte>> {
    Atob(PaddedStandard(base64String))
  }

  /**
   * `_urlBase64ToUint8Array(base64String)`: a fresh array holding the
   * decoded bytes (`charCodeAt` of each character of the binary string),
   * or `None` where `atob` throws.
   */
  method UrlBase64ToUint8Array(base64String: string) returns (r: Option<array<byte>>)
    ensures DecodeUrlBase64(base64String).None? <==> r.None?
    ensures r.Some? ==> fresh(r.value) && r.value[..] == DecodeUrlBase64(base64String).value
  {
    var padding := Repeat('=', PaddingLength(|base64String|));
    var base64 := ToStandardAlphabet(base64String + padding);
    var rawData := Atob(base64);
    if rawData.None? {
      return None;
    }
    var outputArray := ToUint8Array(rawData.value);
    return Some(outputArray);
  }

  /** `new Uint8Array(raw.length)` filled with `raw.charCodeAt(i)` at each `i`. */
  method ToUint8Array(raw: seq<byte>) returns (outputArray: array<byte>)
    ensures fresh(outputArray) && outputArray[..] == raw
  {
    outputArray := new byte[|raw|];
    for i := 0 to |raw|
      invariant outputArray[..i] == raw[..i]
    {
      outputArray[i] := raw[i];
    }
    assert outputArray[..] == outputArray[..|raw|];
  }

  /** The URL-safe alphabet's counterpart of a standard character. */
  function UrlSafeChar(c: char): char {
    if c == '+' then '-' else if c == '/' then '_' else c
  }

  /** Unpadded URL-safe base64 of `b`, the form of `VAPID_PUBLIC_KEY`. */
  function UrlSafeEncode(b: seq<byte>): (r: string)
    ensures |r| == |EncodeBody(b)|
    ensures forall i :: 0 <= i < |r| ==> r[i] == UrlSafeChar(EncodeBody(b)[i])
  {
    var body := EncodeBody(b);
    seq(|body|, i requires 0 <= i < |body| => UrlSafeChar(body[i]))
  }

  /** The padding `_urlBase64ToUint8Array` adds back is the padding the encoder dropped. */
  lemma RestoredPadding(b: seq<byte>)
    ensures Repeat('=', PaddingLength(|EncodeBody(b)|)) == Padding(|b|)
  {
    EncodeBodyLength(b);
  }

  /** Decoding recovers every byte sequence from its unpadded URL-safe encoding. */
  lemma UrlSafeRoundTrip(b: seq<byte>)
    ensures DecodeUrlBase64(UrlSafeEncode(b)) == Some(b)
  {
    var body := EncodeBody(b);
    var u := UrlSafeEncode(b);
    RestoredPadding(b);
    var padded := u + Padding(|b|);
    assert |padded| == |Encode(b)|;
    forall i | 0 <= i < |padded|
      ensures StandardChar(padded[i]) == Encode(b)[i]
    {
      if i < |body| {
        assert padded[i] == UrlSafeChar(body[i]) && Encode(b)[i] == body[i];
        assert IsAlphabetChar(body[i]);
      } else {
        assert padded[i] == Encode(b)[i] == Padding(|b|)[i - |body|];
      }
    }
    assert PaddedStandard(u) == Encode(b);
    DecodeEncode(b);
  }

  // ----- permission -----

  /** `Notification.permission` */
  datatype Permission = Default | Granted | Denied

  /** What `getPermissionStatus` reports. */
  datatype PermissionStatus = Unsupported | Known(permission: Permission)

  /** The three APIs push needs, as the page probes them. */
  datatype Platform = Platform(hasNotification: bool, hasServiceWorker: bool, hasPushManager: bool, permission: Permission)

  /** `isSupported()` */
  predicate IsSupported(p: Platform) {
    p.hasNotification && p.hasServiceWorker && p.hasPushManager
  }

  /** `getPermissionStatus()`: `'unsupported'` when an API is missing, else the permission. */
  function GetPermissionStatus(p: Platform): (r: PermissionStatus)
    ensures r == Unsupported <==> !IsSupported(p)
    ensures r.Known? ==> r.permission == p.permission
  {
    if !IsSupported(p) then Unsupported else Known(p.permission)
  }

  /** The string the page compares against. */
  function StatusName(s: PermissionStatus): (r: string)
    ensures r == "unsupported" <==> s.Unsupported?
  {
    match s
    case Unsupported => "unsupported"
    case Known(Default) => "default"
    case Known(Granted) => "granted"
    case Known(Denied) => "denied"
  }
}
