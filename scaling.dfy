/**
 * The centimetre-to-device conversion shared by make_cube_config and
 * make_board_config: a sheet is always 4096 device units wide, every other
 * length keeps its proportion to the sheet's width, and stroke widths are
 * clamped so that they never fall below one device unit.
 */
module Scaling {

  /** `support_width = 4096` and `board_width = 4096`. */
  const DeviceWidth: real := 4096.0

  /** `width * (length_cm / width_cm)`: a length in cm expressed in device units. */
  function ToDevice(lengthCm: real, totalCm: real): (r: real)
    requires totalCm > 0.0
    ensures r / DeviceWidth == lengthCm / totalCm
    ensures lengthCm > 0.0 ==> r > 0.0
  {
    DeviceWidth * (lengthCm / totalCm)
  }

  /** `max(1, width)`: a stroke is at least one device unit wide. */
  function ClampLineWidth(width: real): (r: real)
    ensures r >= 1.0 && r >= width
    ensures r == 1.0 || r == width
  {
    if 1.0 >= width then 1.0 else width
  }

  /** The sheet's own width comes out as the device width. */
  lemma ToDeviceOfTotal(totalCm: real)
    requires totalCm > 0.0
    ensures ToDevice(totalCm, totalCm) == DeviceWidth
  {
  }

  /** The conversion is linear, so sums and multiples of lengths convert term by term. */
  lemma ToDeviceLinear(a: real, b: real, n: real, totalCm: real)
    requires totalCm > 0.0
    ensures ToDevice(a + b, totalCm) == ToDevice(a, totalCm) + ToDevice(b, totalCm)
    ensures ToDevice(n * a, totalCm) == n * ToDevice(a, totalCm)
  {
    var k := DeviceWidth / totalCm;
    assert ToDevice(a, totalCm) == k * a;
    assert ToDevice(b, totalCm) == k * b;
    assert ToDevice(a + b, totalCm) == k * (a + b);
    assert ToDevice(n * a, totalCm) == k * (n * a);
  }

  /** Two converted lengths stand in the same ratio as the lengths in cm. */
  lemma ToDeviceKeepsRatio(a: real, b: real, totalCm: real)
    requires totalCm > 0.0 && b > 0.0
    ensures ToDevice(a, totalCm) / ToDevice(b, totalCm) == a / b
  {
    var k := DeviceWidth / totalCm;
    assert ToDevice(a, totalCm) == k * a;
    assert ToDevice(b, totalCm) == k * b;
  }
}
