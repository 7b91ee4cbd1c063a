/**
 * The landing page of client/app/page.tsx: the room-code rules behind the
 * "create room" and "join room" buttons, and the re-entrancy guard of the
 * sign-in button. Navigation is the path the router is sent to; the random
 * draw of `createRoom` is an integer parameter.
 */
module Landing {
  import opened Wrappers
  import opened Strings

  /** `joinRoom`: a code of JavaScript length exactly 6 leads to its room; anything else is refused. */
  function JoinRoom(roomId: string): (path: Option<string>)
    ensures path.Some? <==> Utf16Length(roomId) == 6
    ensures path.Some? ==> path.value == "/room/" + roomId
  {
    if Utf16Length(roomId) == 6 then Some("/room/" + roomId) else None
  }

  /**
   * The code `createRoom` makes, where `r` is the generated number minus
   * 100000 (`Math.floor(100000 + Math.random() * 900000)` lies in
   * [100000, 999999]): six digits, between 100000 and 999999.
   */
  function NewRoomCode(r: nat): (code: string)
    requires r < 900000
    ensures |code| == 6 && AllDigits(code) && code[0] != '0'
    ensures 100000 <= ParseNat(code) <= 999999 && ParseNat(code) == 100000 + r
  {
    var n := 100000 + r;
    assert Pow10(5) == 100000 && Pow10(6) == 1000000;
    NatToStringLength(n, 6);
    ParseNatToString(n);
    NatToString(n)
  }

  /** `createRoom`'s destination: "/room/" and a six-digit numeral worth 100000 + r. */
  function CreateRoom(r: nat): (path: string)
    requires r < 900000
    ensures |path| == 12 && path[..6] == "/room/"
    ensures AllDigits(path[6..]) && path[6] != '0' && ParseNat(path[6..]) == 100000 + r
  {
    var code := NewRoomCode(r);
    assert ("/room/" + code)[6..] == code;
    "/room/" + code
  }

  /** Every room `createRoom` makes can be joined by typing its code. */
  lemma CreatedRoomIsJoinable(r: nat)
    requires r < 900000
    ensures JoinRoom(NewRoomCode(r)) == Some(CreateRoom(r))
  {
    Utf16LengthOfDigits(NewRoomCode(r));
  }

  /** The outcome of `signInWithGoogle`: a user and possibly a token, nothing, or an exception. */
  datatype SignIn =
    | SignedIn(user: string, token: Option<string>)
    | NoResult
    | Threw(code: string)

  class LoginButton {
    var isJoining: bool
    var user: Option<string>
    /** What `localStorage` holds under "gdrive_token". */
    var storedToken: Option<string>

    constructor ()
      ensures !isJoining && user == None && storedToken == None
    {
      isJoining, user, storedToken := false, None, None;
    }

    /** The synchronous part of `handleLogin`: refused while a sign-in is under way. */
    method BeginLogin() returns (started: bool)
      modifies this`isJoining
      ensures started <==> !old(isJoining)
      ensures isJoining
    {
      if isJoining {
        return false;
      }
      isJoining := true;
      started := true;
    }

    /**
     * The rest of `handleLogin` once the sign-in settles: on success the
     * user is kept and the token stored ("" if there is none); in every case
     * the guard is released.
     */
    method FinishLogin(outcome: SignIn)
      requires isJoining
      modifies this
      ensures !isJoining
      ensures outcome.SignedIn? ==> user == Some(outcome.user) && storedToken == Some(outcome.token.GetOr(""))
      ensures !outcome.SignedIn? ==> user == old(user) && storedToken == old(storedToken)
    {
      if outcome.SignedIn? {
        user := Some(outcome.user);
        storedToken := Some(outcome.token.GetOr(""));
      }
      isJoining := false;
    }
  }

  /** A second click while the first sign-in is pending starts nothing; after it settles a click works again. */
  method DoubleClick(outcome: SignIn) returns (first: bool, second: bool, third: bool)
    ensures first && !second && third
  {
    var b := new LoginButton();
    first := b.BeginLogin();
    second := b.BeginLogin();
    b.FinishLogin(outcome);
    third := b.BeginLogin();
  }
}
