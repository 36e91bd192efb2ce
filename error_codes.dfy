/** The ErrorCodes enumeration every call of the manager returns in-band,
    and its text table. */
module ErrorCodes {

  const SUCCESS: int := 0
  const UNSUPPORTED_FILE: int := -1
  const AUDIO_LIMIT_EXCEEDED: int := -2
  const INVALID_AUDIO_ID: int := -3
  const AUDIO_NOT_PLAYED: int := -4
  const AUDIO_NOT_PAUSED: int := -5
  const FILE_NOT_FOUND: int := -6
  const VOLUME_OUT_OF_RANGE: int := -7
  const PITCH_OUT_OF_RANGE: int := -8
  const AUDIO_STOPPED: int := -9
  const POSITION_OUT_OF_RANGE: int := -10

  /** The eleven values of the enumeration, SUCCESS down to POSITION_OUT_OF_RANGE. */
  predicate IsErrorCode(code: int) {
    POSITION_OUT_OF_RANGE <= code <= SUCCESS
  }

  const INVALID_ERROR_CODE_TEXT: string := "Invalid Error Code"

  /** The text of an enumerated code is "Error Code <value> (<NAME>): <description>";
      every value outside the enumeration gets the generic text. */
  function FormatErrorCode(errorCode: int): (text: string)
    ensures text == INVALID_ERROR_CODE_TEXT <==> !IsErrorCode(errorCode)
    ensures IsErrorCode(errorCode) ==>
              var head := "Error Code " + CodeText(errorCode) + " (" + CodeName(errorCode) + "): ";
              |head| <= |text| && text[..|head|] == head
  {
    if IsErrorCode(errorCode) then
      var head := "Error Code " + CodeText(errorCode) + " (" + CodeName(errorCode) + "): ";
      var text := head + Description(errorCode);
      assert text[0] == 'E' && text[..|head|] == head;
      text
    else
      INVALID_ERROR_CODE_TEXT
  }

  /** The decimal spelling of an enumerated code, as std::to_string gives it:
      a minus sign before the digit(s) of its magnitude. */
  function CodeText(errorCode: int): (text: string)
    requires IsErrorCode(errorCode)
    ensures errorCode == SUCCESS ==> text == ['0']
    ensures -9 <= errorCode <= -1 ==> text == ['-', ('0' as int - errorCode) as char]
    ensures errorCode == POSITION_OUT_OF_RANGE ==> text == ['-', '1', '0']
  {
    if errorCode == SUCCESS then "0"
    else if errorCode == UNSUPPORTED_FILE then "-1"
    else if errorCode == AUDIO_LIMIT_EXCEEDED then "-2"
    else if errorCode == INVALID_AUDIO_ID then "-3"
    else if errorCode == AUDIO_NOT_PLAYED then "-4"
    else if errorCode == AUDIO_NOT_PAUSED then "-5"
    else if errorCode == FILE_NOT_FOUND then "-6"
    else if errorCode == VOLUME_OUT_OF_RANGE then "-7"
    else if errorCode == PITCH_OUT_OF_RANGE then "-8"
    else if errorCode == AUDIO_STOPPED then "-9"
    else "-10"
  }

  /** The enumerator's name. */
  function CodeName(errorCode: int): string
    requires IsErrorCode(errorCode)
  {
    if errorCode == SUCCESS then "SUCCESS"
    else if errorCode == UNSUPPORTED_FILE then "UNSUPPORTED_FILE"
    else if errorCode == AUDIO_LIMIT_EXCEEDED then "AUDIO_LIMIT_EXCEEDED"
    else if errorCode == INVALID_AUDIO_ID then "INVALID_AUDIO_ID"
    else if errorCode == AUDIO_NOT_PLAYED then "AUDIO_NOT_PLAYED"
    else if errorCode == AUDIO_NOT_PAUSED then "AUDIO_NOT_PAUSED"
    else if errorCode == FILE_NOT_FOUND then "FILE_NOT_FOUND"
    else if errorCode == VOLUME_OUT_OF_RANGE then "VOLUME_OUT_OF_RANGE"
    else if errorCode == PITCH_OUT_OF_RANGE then "PITCH_OUT_OF_RANGE"
    else if errorCode == AUDIO_STOPPED then "AUDIO_STOPPED"
    else "POSITION_OUT_OF_RANGE"
  }

  /** The explanation that follows the name. */
  function Description(errorCode: int): string
    requires IsErrorCode(errorCode)
  {
    if errorCode == SUCCESS then "Success"
    else if errorCode == UNSUPPORTED_FILE then
      "Unsupported file type, supported types are: .ogg,, .wav, .flac"
    else if errorCode == AUDIO_LIMIT_EXCEEDED then "Audio limit of 256 cannot be exceeded"
    else if errorCode == INVALID_AUDIO_ID then "Invalid audioID passed"
    else if errorCode == AUDIO_NOT_PLAYED then "Audio has not been played yet"
    else if errorCode == AUDIO_NOT_PAUSED then "Audio is not currently paused"
    else if errorCode == FILE_NOT_FOUND then "File could not be found"
    else if errorCode == VOLUME_OUT_OF_RANGE then "Volume is out of range (keep between 0-100)"
    else if errorCode == PITCH_OUT_OF_RANGE then "Pitch is out of range (cannot be below 0)"
    else if errorCode == AUDIO_STOPPED then "Audio has been stopped"
    else "Position is out of range (cannot exceed the audio duration)"
  }

  /** The full text of SUCCESS, and the generic text just outside the
      enumeration on both sides. */
  lemma FormatErrorCodeExamples()
    ensures FormatErrorCode(SUCCESS) == "Error Code 0 (SUCCESS): Success"
    ensures FormatErrorCode(1) == INVALID_ERROR_CODE_TEXT
    ensures FormatErrorCode(-11) == INVALID_ERROR_CODE_TEXT
  {
  }
}
