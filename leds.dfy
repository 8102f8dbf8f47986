/** The status LEDs (matrix_scan_user): on every scan the three right-hand
    LEDs show the topmost layer, LED 1 also lights for caps lock, and the board
    LED stays off. */
module StatusLeds {
  import opened MachineInts

  /** The bit of the host's LED mask that the layout reads as caps lock. */
  const USB_LED_CAPS_LOCK: nat := 2

  datatype Leds = Leds(board: bool, led1: bool, led2: bool, led3: bool)

  /** Whether the host reports caps lock on, by testing bit USB_LED_CAPS_LOCK
      of the mask. */
  function CapsLockOn(ledMask: bv8): (on: bool)
    ensures on <==> (ledMask as int / 4) % 2 == 1
  {
    ledMask & (1 << USB_LED_CAPS_LOCK) != 0
  }

  /** The LEDs after a scan with `layer` the topmost active layer: all off,
      then the layer's pattern, then LED 1 for caps lock. */
  function Indicator(layer: uint8, ledMask: bv8): (r: Leds)
    ensures !r.board
    ensures r.led1 <==> layer == 3 || CapsLockOn(ledMask)
    ensures r.led2 <==> layer == 2 || layer == 3
    ensures r.led3 <==> layer == 1 || layer == 3
  {
    var off := Leds(false, false, false, false);
    var shown :=
      if layer == 1 then off.(led3 := true)
      else if layer == 2 then off.(led2 := true)
      else if layer == 3 then off.(led1 := true, led2 := true, led3 := true)
      else off;
    if CapsLockOn(ledMask) then shown.(led1 := true) else shown
  }

  /** The four LED outputs of the board. */
  class Board {
    var boardLed: bool
    var led1: bool
    var led2: bool
    var led3: bool

    function State(): Leds
      reads this
    {
      Leds(boardLed, led1, led2, led3)
    }

    /** One scan: switch everything off, light the layer's pattern, then
        LED 1 for caps lock. What the LEDs showed before does not matter. */
    method MatrixScanUser(layer: uint8, ledMask: bv8)
      modifies this
      ensures State() == Indicator(layer, ledMask)
    {
      boardLed := false;
      led1 := false;
      led2 := false;
      led3 := false;
      if layer == 1 {
        led3 := true;
      } else if layer == 2 {
        led2 := true;
      } else if layer == 3 {
        led1 := true;
        led2 := true;
        led3 := true;
      }
      if CapsLockOn(ledMask) {
        led1 := true;
      }
    }

    /** Two scans with the same layer and mask leave the same LEDs lit. */
    method ScanTwice(layer: uint8, ledMask: bv8) returns (first: Leds, second: Leds)
      modifies this
      ensures first == second == State() == Indicator(layer, ledMask)
    {
      MatrixScanUser(layer, ledMask);
      first := State();
      MatrixScanUser(layer, ledMask);
      second := State();
    }
  }

  /** Whatever the host LED mask, the four layers show four different
      patterns, and any other layer shows the same as layer 0. */
  lemma LayerPatternsDistinct(ledMask: bv8)
    ensures forall i: uint8, j: uint8 :: i <= 3 && j <= 3 && i != j ==> Indicator(i, ledMask) != Indicator(j, ledMask)
    ensures forall l: uint8 :: l > 3 ==> Indicator(l, ledMask) == Indicator(0, ledMask)
  {
  }
}
