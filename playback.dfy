/** The SFML playback object a record drives (sf::Sound for sounds, sf::Music
    for streams), reduced to the state the manager reads and writes. */
module Playback {

  /** The AudioStates enumeration: STOPPED = 0, PAUSED = 1, PLAYING = 2. */
  datatype Status = Stopped | Paused | Playing

  /** Status, the three settings the manager configures, the playing offset
      and the total duration, both in milliseconds. */
  datatype Handle = Handle(status: Status, volume: real, pitch: real, loop: bool,
                           offset: int, duration: int)
  {
    /** play(): resumes a paused handle where it stands, starts a stopped one
        from its offset and restarts a playing one from the beginning. */
    function Play(): Handle {
      this.(status := Playing, offset := if status == Playing then 0 else offset)
    }

    /** pause(): a playing or paused handle ends up paused; a stopped one stays stopped. */
    function Pause(): Handle {
      if status == Stopped then this else this.(status := Paused)
    }

    /** stop(): back to the beginning, stopped. */
    function Stop(): Handle {
      this.(status := Stopped, offset := 0)
    }

    /** setPlayingOffset(). */
    function Seek(position: int): Handle {
      this.(offset := position)
    }

    /** setVolume(). */
    function WithVolume(v: real): Handle {
      this.(volume := v)
    }

    /** setPitch(). */
    function WithPitch(p: real): Handle {
      this.(pitch := p)
    }
  }

  /** A playback object as `new` creates it and the engines configure it. */
  function Create(volume: real, pitch: real, loop: bool, duration: int): Handle {
    Handle(Stopped, volume, pitch, loop, 0, duration)
  }
}
