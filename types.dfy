/** Machine integer widths, the Option wrapper and peripheral tokens shared by
    both firmwares. */
module Types {

  /** Rust `u8`, `u16`, `u32` as bounded subsets of `int`. */
  type u8 = x: int | 0 <= x < 0x100
  type u16 = x: int | 0 <= x < 0x1_0000
  type u32 = x: int | 0 <= x < 0x1_0000_0000

  datatype Option<+T> = None | Some(value: T)

  /** An owned GPIO peripheral singleton (`peripherals.GPIOnn`): the number
      of the physical pin it drives. */
  datatype Gpio = Gpio(num: u8)

  /** Electrical level of a digital pin (`esp_hal::gpio::Level`). */
  datatype Level = Low | High
}
