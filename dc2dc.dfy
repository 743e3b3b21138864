/** The DC-DC converter regulator: a PWM whose duty cycle is stepped up or
    down after each measurement of the output voltage, fast when far from
    the target band and slow when near it. Voltages and duty cycles are
    reals; the ADC sample is an input. The PWM peripheral is reduced to
    whether it exists, whether it runs and the duty last given to it. */
module Dc2Dc {

  const NoPin: nat := 0xFF
  const PwmDefaultFreq: nat := 40_000
  const AdcDefaultVref: real := 3.3
  const PwmMinDutyDefault: real := 0.0
  const PwmMaxDutyDefault: real := 95.0
  const PwmSlowStepDefault: real := 0.1
  const PwmFastStepDefault: real := 1.0
  const PwmToleranceToFastDefault: real := 0.1
  const VoutToleranceDefault: real := 0.05

  datatype Config = Config(pwmPin: nat, pwmFreq: nat, adcVref: real, adcChannel: nat,
                           divider: real, calibration: real,
                           pwmMinDuty: real, pwmMaxDuty: real,
                           pwmSlowStepDuty: real, pwmFastStepDuty: real,
                           pwmToleranceToFast: real, vTolerance: real)

  const DefaultConfig := Config(NoPin, PwmDefaultFreq, AdcDefaultVref, NoPin, 1.0, 0.0,
                                PwmMinDutyDefault, PwmMaxDutyDefault, PwmSlowStepDefault,
                                PwmFastStepDefault, PwmToleranceToFastDefault, VoutToleranceDefault)

  predicate ValidConfig(c: Config)
  {
    c.pwmPin != NoPin && c.pwmFreq != 0 && c.adcChannel != NoPin
  }

  /** The duty after one step, before clamping: outside the band by more
      than the fast tolerance the fast step, outside the band the slow
      step, inside the band no change. */
  function Step(c: Config, duty: real, v: real, target: real): real
  {
    var vMin := target * (1.0 - c.vTolerance);
    var vMax := target * (1.0 + c.vTolerance);
    if v < vMin * (1.0 - c.pwmToleranceToFast) then duty + c.pwmFastStepDuty
    else if v > vMax * (1.0 + c.pwmToleranceToFast) then duty - c.pwmFastStepDuty
    else if v < vMin then duty + c.pwmSlowStepDuty
    else if v > vMax then duty - c.pwmSlowStepDuty
    else duty
  }

  /** The clamp `adjust` applies: the maximum first, then the minimum. */
  function Clamp(c: Config, duty: real): (r: real)
    ensures r >= c.pwmMinDuty
    ensures c.pwmMinDuty <= c.pwmMaxDuty ==> c.pwmMinDuty <= r <= c.pwmMaxDuty
    ensures c.pwmMinDuty <= duty <= c.pwmMaxDuty ==> r == duty
  {
    var d := if duty > c.pwmMaxDuty then c.pwmMaxDuty else duty;
    if d < c.pwmMinDuty then c.pwmMinDuty else d
  }

  /** The target `setV` stores: negative requests become 0. */
  function Target(v: real): (r: real)
    ensures r >= 0.0 && (v >= 0.0 ==> r == v)
  {
    if v < 0.0 then 0.0 else v
  }

  /** Setting the same voltage again changes nothing. */
  lemma TargetIdempotent(v: real)
    ensures Target(Target(v)) == Target(v)
  {
  }

  /** Inside the tolerance band the duty is kept. */
  lemma StepInBand(c: Config, duty: real, v: real, target: real)
    requires 0.0 <= c.vTolerance <= 1.0 && 0.0 <= c.pwmToleranceToFast && target >= 0.0
    requires target * (1.0 - c.vTolerance) <= v <= target * (1.0 + c.vTolerance)
    ensures Step(c, duty, v, target) == duty
  {
    var vMin := target * (1.0 - c.vTolerance);
    var vMax := target * (1.0 + c.vTolerance);
    NonNegProduct(target, 1.0 - c.vTolerance);
    Scale(vMin, c.pwmToleranceToFast);
    Scale(vMax, c.pwmToleranceToFast);
  }

  lemma NonNegProduct(a: real, b: real)
    requires a >= 0.0 && b >= 0.0
    ensures a * b >= 0.0
  {
  }

  /** Scaling a non-negative value down or up by a non-negative fraction. */
  lemma Scale(x: real, p: real)
    requires x >= 0.0 && p >= 0.0
    ensures x * (1.0 - p) <= x <= x * (1.0 + p)
  {
    assert x * (1.0 - p) == x - x * p;
    assert x * (1.0 + p) == x + x * p;
    assert x * p >= 0.0;
  }

  /** A lower measurement never gives a smaller duty, as long as the fast
      step is at least the slow one and the tolerances are fractions. */
  lemma StepMonotone(c: Config, duty: real, v1: real, v2: real, target: real)
    requires 0.0 <= c.vTolerance < 1.0 && 0.0 <= c.pwmToleranceToFast < 1.0 && target >= 0.0
    requires 0.0 <= c.pwmSlowStepDuty <= c.pwmFastStepDuty
    requires v1 <= v2
    ensures Step(c, duty, v1, target) >= Step(c, duty, v2, target)
  {
    var vMin := target * (1.0 - c.vTolerance);
    var vMax := target * (1.0 + c.vTolerance);
    Scale(target, c.vTolerance);
    NonNegProduct(target, 1.0 - c.vTolerance);
    Scale(vMin, c.pwmToleranceToFast);
    Scale(vMax, c.pwmToleranceToFast);
  }

  class Dc2Dc {
    var config: Config
    var vTarget: real
    var vActual: real
    var dutyActual: real
    var hasPwm: bool
    var running: bool
    var pwmDuty: real

    /** There is no PWM until the first `configure`; only an existing PWM
        runs. */
    predicate Valid()
      reads this
    {
      (!hasPwm ==> config == DefaultConfig) && (running ==> hasPwm)
    }

    constructor ()
      ensures Valid() && config == DefaultConfig && !hasPwm && !running
      ensures vTarget == 0.0 && vActual == 0.0 && dutyActual == 0.0
    {
      config := DefaultConfig;
      vTarget, vActual, dutyActual := 0.0, 0.0, 0.0;
      hasPwm, running, pwmDuty := false, false, 0.0;
    }

    function IsRunning(): bool
      reads this
    {
      hasPwm && running
    }

    /** Stops the PWM; fails only when it runs under an invalid
        configuration. */
    method Stop() returns (ok: bool)
      requires Valid()
      modifies this`running
      ensures Valid()
      ensures !old(IsRunning()) ==> ok && running == old(running)
      ensures old(IsRunning()) ==> ok == ValidConfig(config) && running == !ValidConfig(config)
    {
      if !IsRunning() {
        return true;
      }
      if !ValidConfig(config) {
        return false;
      }
      running := false;
      return true;
    }

    /** Starts the PWM at the minimum duty; true at once when it is
        already running, false for an invalid configuration. */
    method Start() returns (ok: bool)
      requires Valid()
      modifies this`running, this`pwmDuty
      ensures Valid()
      ensures old(IsRunning()) ==> ok && running == old(running) && pwmDuty == old(pwmDuty)
      ensures !old(IsRunning()) ==> (ok <==> ValidConfig(config))
      ensures !old(IsRunning()) && ok ==> IsRunning() && pwmDuty == config.pwmMinDuty
      ensures !ok ==> running == old(running)
    {
      if IsRunning() {
        return true;
      }
      if !ValidConfig(config) {
        return false;
      }
      pwmDuty := config.pwmMinDuty;
      running := true;
      return true;
    }

    /** Replaces the configuration; a change of PWM pin or ADC reference
        first stops the converter, and a new PWM pin gets a new, stopped
        PWM. */
    method Configure(c: Config)
      requires Valid()
      modifies this`config, this`running, this`hasPwm, this`pwmDuty
      ensures Valid() && config == c && hasPwm
      ensures old(hasPwm) && c.pwmPin == old(config.pwmPin) && c.adcVref == old(config.adcVref) ==>
                running == old(running) && pwmDuty == old(pwmDuty)
      ensures c.pwmPin != old(config.pwmPin) || !old(hasPwm) ==> !running && pwmDuty == 0.0
      ensures c.pwmPin == old(config.pwmPin) && c.adcVref != old(config.adcVref) && old(hasPwm) ==>
                running == (old(running) && !ValidConfig(old(config)))
    {
      var pinEq := c.pwmPin == config.pwmPin;
      var vrefEq := c.adcVref == config.adcVref;
      if !pinEq || !vrefEq {
        var _ := Stop();
      }
      if !pinEq && hasPwm {
        hasPwm := false;
        running := false;
      }
      config := c;
      if !hasPwm {
        hasPwm, running, pwmDuty := true, false, 0.0;
      }
    }

    method SetV(v: real)
      modifies this`vTarget
      ensures vTarget == Target(v)
    {
      var t := v;
      if t < 0.0 {
        t := 0.0;
      }
      if vTarget == t {
        return;
      }
      vTarget := t;
    }

    /** One regulation step with the ADC sample `adc`: stopped, voltage and
        duty read 0; running, the duty is stepped towards the target band
        and clamped, and the PWM gets the new duty when it changed. */
    method Adjust(adc: real)
      requires Valid()
      modifies this`vActual, this`dutyActual, this`pwmDuty
      ensures Valid()
      ensures !IsRunning() ==> vActual == 0.0 && dutyActual == 0.0 && pwmDuty == old(pwmDuty)
      ensures IsRunning() ==> vActual == adc * config.divider + config.calibration
      ensures IsRunning() ==> dutyActual == Clamp(config, Step(config, old(dutyActual), vActual, vTarget))
      ensures IsRunning() && dutyActual != old(dutyActual) ==> pwmDuty == dutyActual
      ensures dutyActual == old(dutyActual) ==> pwmDuty == old(pwmDuty)
    {
      if !IsRunning() {
        vActual := 0.0;
        dutyActual := 0.0;
        return;
      }
      vActual := adc * config.divider + config.calibration;
      var duty := dutyActual;
      var vTargetMin := vTarget * (1.0 - config.vTolerance);
      var vTargetMax := vTarget * (1.0 + config.vTolerance);
      if vActual < vTargetMin * (1.0 - config.pwmToleranceToFast) {
        duty := duty + config.pwmFastStepDuty;
      } else if vActual > vTargetMax * (1.0 + config.pwmToleranceToFast) {
        duty := duty - config.pwmFastStepDuty;
      } else if vActual < vTargetMin {
        duty := duty + config.pwmSlowStepDuty;
      } else if vActual > vTargetMax {
        duty := duty - config.pwmSlowStepDuty;
      }
      if duty > config.pwmMaxDuty {
        duty := config.pwmMaxDuty;
      }
      if duty < config.pwmMinDuty {
        duty := config.pwmMinDuty;
      }
      if duty != dutyActual {
        dutyActual := duty;
        pwmDuty := dutyActual;
      }
    }

    function GetV(): real
      reads this
    {
      vActual
    }

    function GetVTarget(): real
      reads this
    {
      vTarget
    }

    function GetDuty(): real
      reads this
    {
      dutyActual
    }
  }
}
